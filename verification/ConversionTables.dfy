/** The converters told case by case, apart from how they are computed: what each Python value stands for, and what an
    MMS value is seen as from Python. */
module ConversionTables {
  import opened Common
  import opened BitStrings
  import opened MmsValues
  import opened GenericConversion

  // Extraction.

  /** The integer a Python value stands for: `bool` is an integer type. */
  ghost predicate IsInt(v: PyValue, i: int) {
    v == PyInt(i) || (v == PyBool(true) && i == 1) || (v == PyBool(false) && i == 0)
  }

  /** An integer is taken exactly when it is in the range of its type. */
  lemma IntegersExactly(v: PyValue, i: int)
    ensures ExtractI64(v).Some? && ExtractI64(v).value == i <==>
            IsInt(v, i) && -0x8000_0000_0000_0000 <= i < 0x8000_0000_0000_0000
    ensures ExtractU64(v).Some? && ExtractU64(v).value == i <==> IsInt(v, i) && 0 <= i < 0x1_0000_0000_0000_0000
    ensures ExtractU8(v).Some? && ExtractU8(v).value == i <==> IsInt(v, i) && 0 <= i < 0x100
  {
  }

  /** Booleans and strings are taken as such only. */
  lemma ScalarsExactly(v: PyValue, b: bool, s: string)
    ensures ExtractBool(v) == Some(b) <==> v == PyBool(b)
    ensures ExtractStr(v) == Some(s) <==> v == PyStr(s)
  {
  }

  /** A number is taken as such, an integer when it is nearer to some binary64 number than to 2^1024: below the middle
      of that and the largest binary64 number. */
  lemma NumbersExactly(v: PyValue, f: F64)
    ensures var middleTwice := (Pow2(1024) - Pow2(971)) + Pow2(1024);
            ExtractF64(v) == Some(f) <==>
            v == PyFloat(f) || (exists i: int :: IsInt(v, i) && f == OfInt(i) && -middleTwice < 2 * i < middleTwice)
  {
    assert Pow2(971) == 2 * Pow2(970);
    if ExtractInt(v).Some? {
      assert IsInt(v, ExtractInt(v).value);
    }
  }

  /** The octets a Python value stands for: bytes, or a sequence of integers below 256. */
  ghost predicate AreOctets(v: PyValue, octets: Octets) {
    match v
    case PyBytes(o) => o == octets
    case PyByteArray(o) => o == octets
    case PyList(items) => |items| == |octets| && forall i :: 0 <= i < |items| ==> IsInt(items[i], octets[i])
    case PyTuple(items) => |items| == |octets| && forall i :: 0 <= i < |items| ==> IsInt(items[i], octets[i])
    case _ => false
  }

  lemma {:induction false} ItemsAreOctets(items: seq<PyValue>, octets: Octets)
    ensures OctetsOf(items) == Some(octets) <==>
            |items| == |octets| && forall i :: 0 <= i < |items| ==> IsInt(items[i], octets[i])
  {
    if items != [] && octets != [] {
      ItemsAreOctets(items[1..], octets[1..]);
      IntegersExactly(items[0], octets[0]);
      assert octets == [octets[0]] + octets[1..];
      OctetsHead(items, octets);
    }
  }

  lemma OctetsHead(items: seq<PyValue>, octets: Octets)
    requires items != [] && octets != []
    ensures (|items| == |octets| && forall i :: 0 <= i < |items| ==> IsInt(items[i], octets[i])) <==>
            IsInt(items[0], octets[0]) &&
            (|items[1..]| == |octets[1..]| &&
             forall i :: 0 <= i < |items[1..]| ==> IsInt(items[1..][i], octets[1..][i]))
  {
    assert forall i :: 1 <= i < |items| && i < |octets| ==>
             items[i] == items[1..][i - 1] && octets[i] == octets[1..][i - 1];
    assert forall i :: 0 <= i < |items| - 1 && i < |octets| - 1 ==>
             items[1..][i] == items[i + 1] && octets[1..][i] == octets[i + 1];
  }

  lemma OctetsExactly(v: PyValue, octets: Octets)
    ensures ExtractOctets(v) == Some(octets) <==> AreOctets(v, octets)
  {
    match v
    case PyList(items) => ItemsAreOctets(items, octets);
    case PyTuple(items) => ItemsAreOctets(items, octets);
    case _ =>
  }

  /** What a bit string is made from: octets and a padding of 0 to 7, 0 when there are none. The unused bits of the last
      octet come out as zero, every other bit as given. */
  ghost predicate BitsOf(padding: PyValue, data: PyValue, v: MmsValue) {
    && v.BitString? && IsInt(padding, v.padding) && v.padding <= 7
    && exists octets: Octets ::
         && AreOctets(data, octets) && |octets| == |v.data| && (octets == [] ==> v.padding == 0)
         && (forall i :: 0 <= i < |octets| - 1 ==> v.data[i] == octets[i])
         && (octets != [] ==> LastCleared(octets, v.padding, v.data))
  }

  predicate LastCleared(octets: Octets, padding: nat, data: Octets)
    requires octets != [] && |data| == |octets|
  {
    var last := octets[|octets| - 1] as int;
    data[|data| - 1] as int == last - last % Power(padding)
  }

  function Power(n: nat): (r: nat)
    ensures r > 0
  {
    if n == 0 then 1 else 2 * Power(n - 1)
  }

  lemma {:induction false} ClearLowIsFloor(octet: Octet, padding: nat)
    ensures ClearLow(octet, padding) as int == octet as int - octet as int % Power(padding)
  {
    if padding > 0 {
      ClearLowIsFloor(octet as int / 2, padding - 1);
      HalvedRemainder(octet, Power(padding - 1));
    }
  }

  lemma HalvedRemainder(x: nat, p: nat)
    requires p > 0
    ensures 2 * (x / 2 - x / 2 % p) == x - x % (2 * p)
  {
    var q, r := x / (2 * p), x % (2 * p);
    assert x == 2 * p * q + r;
    assert x / 2 == p * q + r / 2 && 0 <= r / 2 < p;
    Quotient(x / 2, p, q, r / 2);
    if x % 2 == 1 {
      assert r % 2 == 1;
    }
  }

  lemma Quotient(x: nat, p: nat, q: nat, r: nat)
    requires x == p * q + r && r < p
    ensures x % p == r
  {
    var a, b := x / p, x % p;
    assert x == p * a + b;
    assert p * (q - a) == b - r;
    assert p * (q - a) == -(p * (a - q));
    if q > a {
      AtLeast(p, q - a);
    } else if q < a {
      AtLeast(p, a - q);
    }
  }

  lemma {:induction false} AtLeast(p: nat, n: nat)
    requires n > 0
    ensures p * n >= p
  {
    if n > 1 {
      AtLeast(p, n - 1);
      assert p * n == p * (n - 1) + p;
    }
  }

  lemma BitsExactly(padding: PyValue, data: PyValue, v: MmsValue)
    ensures FromBitFields(padding, data) == Some(v) <==> BitsOf(padding, data, v)
  {
    if FromBitFields(padding, data) == Some(v) {
      BitsAccepted(padding, data);
    }
    if BitsOf(padding, data, v) {
      BitsUnique(padding, data, v);
    }
  }

  lemma ClearedLast(octets: Octets, padding: nat)
    requires padding <= 7 && octets != []
    ensures var last := octets[|octets| - 1] as int;
            ClearTrailing(octets, padding) == octets[..|octets| - 1] + [last - last % Power(padding)]
  {
    ClearLowIsFloor(octets[|octets| - 1], padding);
  }

  lemma ClearedAsGiven(octets: Octets, padding: nat)
    requires padding <= 7
    ensures var data := ClearTrailing(octets, padding);
            && |data| == |octets|
            && (forall i :: 0 <= i < |octets| - 1 ==> data[i] == octets[i])
            && (octets != [] ==> LastCleared(octets, padding, data))
  {
    if octets != [] {
      ClearedLast(octets, padding);
    }
  }

  lemma BitsAccepted(padding: PyValue, data: PyValue)
    requires FromBitFields(padding, data).Some?
    ensures BitsOf(padding, data, FromBitFields(padding, data).value)
  {
    var p, octets := ExtractU8(padding).value, ExtractOctets(data).value;
    IntegersExactly(padding, p);
    OctetsExactly(data, octets);
    ClearedAsGiven(octets, p);
  }

  lemma OneClearing(octets: Octets, padding: nat, data: Octets)
    requires padding <= 7 && |octets| == |data|
    requires forall i :: 0 <= i < |octets| - 1 ==> data[i] == octets[i]
    requires octets != [] ==> LastCleared(octets, padding, data)
    ensures data == ClearTrailing(octets, padding)
  {
    if octets != [] {
      ClearedLast(octets, padding);
    }
  }

  lemma BitsTaken(padding: PyValue, data: PyValue, p: Octet, octets: Octets)
    requires IsInt(padding, p) && p <= 7 && AreOctets(data, octets) && (octets == [] ==> p == 0)
    ensures FromBitFields(padding, data) == Some(BitString(p, ClearTrailing(octets, p)))
  {
    IntegersExactly(padding, p);
    OctetsExactly(data, octets);
  }

  lemma BitsUnique(padding: PyValue, data: PyValue, v: MmsValue)
    requires BitsOf(padding, data, v)
    ensures FromBitFields(padding, data) == Some(v)
  {
    var octets: Octets :|
      && AreOctets(data, octets) && |octets| == |v.data| && (octets == [] ==> v.padding == 0)
      && (forall i :: 0 <= i < |octets| - 1 ==> v.data[i] == octets[i])
      && (octets != [] ==> LastCleared(octets, v.padding, v.data));
    OneClearing(octets, v.padding, v.data);
    BitsTaken(padding, data, v.padding, octets);
  }

  // Outward.

  /** What a value is seen as: bit strings as their octets, arrays and structures alike as lists. */
  ghost predicate SeenAs(v: MmsValue, p: PyValue)
    decreases v
  {
    match v
    case Boolean(b) => p == PyBool(b)
    case Integer(i) => p == PyInt(i)
    case Unsigned(u) => p == PyInt(u)
    case Float32(f) => p == PyFloat(Widen(f))
    case Float64(d) => p == PyFloat(d)
    case VisibleString(s) => p == PyStr(s)
    case MmsString(s) => p == PyStr(s)
    case OctetString(o) => p == PyBytes(o)
    case UtcTime(o) => p == PyBytes(o)
    case BinaryTime(o) => p == PyBytes(o)
    case BitString(_, data) => p == PyBytes(data)
    case Array(items) =>
      p.PyList? && |p.items| == |items| && forall i :: 0 <= i < |items| ==> SeenAs(items[i], p.items[i])
    case Structure(items) =>
      p.PyList? && |p.items| == |items| && forall i :: 0 <= i < |items| ==> SeenAs(items[i], p.items[i])
  }

  lemma {:induction false} ItemsSeen(vs: seq<MmsValue>, i: nat)
    requires i < |vs|
    ensures ToPyAll(vs)[i] == ToPy(vs[i])
  {
    if i > 0 {
      ItemsSeen(vs[1..], i - 1);
    }
  }

  /** Every value is seen as one Python value, at every depth. */
  lemma {:induction false} OutwardExactly(v: MmsValue, p: PyValue)
    ensures SeenAs(v, p) <==> p == ToPy(v)
    decreases v
  {
    if v.Array? || v.Structure? {
      ItemsOutward(v.items, p);
    }
  }

  lemma {:induction false} ItemsOutward(vs: seq<MmsValue>, p: PyValue)
    ensures p == PyList(ToPyAll(vs)) <==>
            p.PyList? && |p.items| == |vs| && forall i :: 0 <= i < |vs| ==> SeenAs(vs[i], p.items[i])
    decreases vs
  {
    if p.PyList? && |p.items| == |vs| {
      forall i | 0 <= i < |vs| ensures SeenAs(vs[i], p.items[i]) <==> p.items[i] == ToPyAll(vs)[i] {
        ItemsSeen(vs, i);
        OutwardExactly(vs[i], p.items[i]);
      }
    }
  }

  // The plain forms.

  predicate DictFree(v: PyValue) {
    match v
    case PyDict(_) => false
    case PyList(items) => AllDictFree(items)
    case PyTuple(items) => AllDictFree(items)
    case _ => true
  }

  predicate AllDictFree(items: seq<PyValue>) {
    items == [] || (DictFree(items[0]) && AllDictFree(items[1..]))
  }

  /** Values with a plain form: booleans, signed integers, binary32 numbers, visible strings, octet strings, and
      arrays of such. */
  predicate HasPlainForm(v: MmsValue) {
    match v
    case Array(items) => AllHavePlainForm(items)
    case _ => v.Boolean? || v.Integer? || v.Float32? || v.VisibleString? || v.OctetString?
  }

  predicate AllHavePlainForm(vs: seq<MmsValue>) {
    vs == [] || (HasPlainForm(vs[0]) && AllHavePlainForm(vs[1..]))
  }

  /** The plain Python values: no `None`, no tuple, no integer out of range. */
  predicate Plain(v: PyValue) {
    match v
    case PyInt(i) => -0x8000_0000_0000_0000 <= i < 0x8000_0000_0000_0000
    case PyList(items) => AllPlain(items)
    case _ => v.PyBool? || v.PyFloat? || v.PyStr? || v.PyBytes? || v.PyByteArray?
  }

  predicate AllPlain(items: seq<PyValue>) {
    items == [] || (Plain(items[0]) && AllPlain(items[1..]))
  }

  /** A plain value after the way in and out: byte arrays are bytes, numbers are rounded to binary32. */
  function Settled(v: PyValue): PyValue {
    match v
    case PyFloat(d) => PyFloat(Widen(Narrow(d)))
    case PyByteArray(o) => PyBytes(o)
    case PyList(items) => PyList(AllSettled(items))
    case _ => v
  }

  function AllSettled(items: seq<PyValue>): seq<PyValue> {
    if items == [] then [] else [Settled(items[0])] + AllSettled(items[1..])
  }

  /** Every value with a plain form is reached by what it is seen as. */
  lemma {:induction false} PlainUndoesToPy(v: MmsValue)
    requires HasPlainForm(v)
    ensures Generic(ToPy(v)) == Ok(v)
    decreases v, 1
  {
    if v.Array? {
      AllPlainUndoToPy(v.items);
    }
  }

  lemma {:induction false} AllPlainUndoToPy(vs: seq<MmsValue>)
    requires AllHavePlainForm(vs)
    ensures GenericAll(ToPyAll(vs)) == Ok(vs)
    decreases vs, 0
  {
    if vs != [] {
      PlainUndoesToPy(vs[0]);
      AllPlainUndoToPy(vs[1..]);
      GenericAllCons(ToPy(vs[0]), vs[0], ToPyAll(vs[1..]), vs[1..]);
      assert vs == [vs[0]] + vs[1..];
    }
  }

  /** A value without dicts is accepted exactly when it is plain at every depth, and gives the value with a plain form
      that is seen as it. */
  lemma {:induction false} PlainExactly(v: PyValue)
    requires DictFree(v)
    ensures Generic(v).Ok? <==> Plain(v)
    ensures Generic(v).Ok? ==> HasPlainForm(Generic(v).value) && ToPy(Generic(v).value) == Settled(v)
    decreases v, 1
  {
    if v.PyList? {
      AllPlainExactly(v.items);
    }
  }

  lemma {:induction false} AllPlainExactly(items: seq<PyValue>)
    requires AllDictFree(items)
    ensures GenericAll(items).Ok? <==> AllPlain(items)
    ensures GenericAll(items).Ok? ==>
              AllHavePlainForm(GenericAll(items).value) && ToPyAll(GenericAll(items).value) == AllSettled(items)
    decreases items, 0
  {
    if items != [] {
      PlainExactly(items[0]);
      AllPlainExactly(items[1..]);
      if GenericAll(items).Ok? {
        assert GenericAll(items).value[1..] == GenericAll(items[1..]).value;
      }
    }
  }

  lemma {:induction false} ListExactly(items: seq<PyValue>)
    ensures GenericAll(items).Ok? <==> forall i :: 0 <= i < |items| ==> Generic(items[i]).Ok?
    ensures GenericAll(items).Ok? ==>
              forall i :: 0 <= i < |items| ==> Generic(items[i]) == Ok(GenericAll(items).value[i])
  {
    if items != [] {
      ListExactly(items[1..]);
      assert forall i :: 1 <= i < |items| ==> items[i] == items[1..][i - 1];
      assert forall i :: 0 <= i < |items| - 1 ==> items[1..][i] == items[i + 1];
    }
  }

  // The tagged forms.

  function Field(d: map<PyKey, PyValue>, key: string): Option<PyValue> {
    if Name(key) in d then Some(d[Name(key)]) else None
  }

  /** The value read off the field, when it is there and extracts. */
  function FromField<T>(field: Option<PyValue>, extract: PyValue -> Option<T>, make: T -> Option<MmsValue>)
    : Result<MmsValue>
  {
    match field
    case None => Raised(ValueError)
    case Some(v) =>
      match extract(v)
      case None => Raised(ValueError)
      case Some(x) => match make(x) case Some(m) => Ok(m) case None => Raised(ValueError)
  }

  ghost predicate TypeIs(d: map<PyKey, PyValue>, tag: string) {
    Field(d, "type") == Some(PyStr(tag))
  }

  lemma TagLiterals()
    ensures KindNamed("default") == Some(DefaultKind) && KindNamed("bool") == Some(BoolKind)
    ensures KindNamed("int") == Some(IntKind) && KindNamed("uint") == Some(UintKind)
    ensures KindNamed("float32") == Some(Float32Kind) && KindNamed("float64") == Some(Float64Kind)
    ensures KindNamed("visible_string") == Some(VisibleStringKind) && KindNamed("mms_string") == Some(MmsStringKind)
    ensures KindNamed("octet_string") == Some(OctetStringKind) && KindNamed("utc_time") == Some(UtcTimeKind)
    ensures KindNamed("binary_time") == Some(BinaryTimeKind) && KindNamed("bit_string") == Some(BitStringKind)
    ensures KindNamed("structure") == Some(StructureKind)
  {
    KindNamedBack(DefaultKind);
    KindNamedBack(BoolKind);
    KindNamedBack(IntKind);
    KindNamedBack(UintKind);
    KindNamedBack(Float32Kind);
    KindNamedBack(Float64Kind);
    KindNamedBack(VisibleStringKind);
    KindNamedBack(MmsStringKind);
    KindNamedBack(OctetStringKind);
    KindNamedBack(UtcTimeKind);
    KindNamedBack(BinaryTimeKind);
    KindNamedBack(BitStringKind);
    KindNamedBack(StructureKind);
  }

  lemma KindOfTag(d: map<PyKey, PyValue>, tag: string)
    requires TypeIs(d, tag)
    ensures KindOfDict(d) == KindNamed(tag)
  {
  }

  /** The tagged numbers and booleans. */
  lemma TaggedNumbers(d: map<PyKey, PyValue>, zero: Option<MmsValue>)
    ensures TypeIs(d, "bool") ==>
              Tagged(PyDict(d), zero) == FromField(Field(d, "value"), ExtractBool, b => Some(Boolean(b)))
    ensures TypeIs(d, "int") ==>
              Tagged(PyDict(d), zero) == FromField(Field(d, "value"), ExtractI64, (i: I64) => Some(Integer(i)))
    ensures TypeIs(d, "uint") ==>
              Tagged(PyDict(d), zero) == FromField(Field(d, "value"), ExtractU64, (u: U64) => Some(Unsigned(u)))
    ensures TypeIs(d, "float32") ==>
              Tagged(PyDict(d), zero) == FromField(Field(d, "value"), ExtractF64, f => Some(Float32(Narrow(f))))
    ensures TypeIs(d, "float64") ==>
              Tagged(PyDict(d), zero) == FromField(Field(d, "value"), ExtractF64, f => Some(Float64(f)))
  {
    TagLiterals();
  }

  /** The tagged strings. */
  lemma TaggedTexts(d: map<PyKey, PyValue>, zero: Option<MmsValue>)
    ensures TypeIs(d, "visible_string") ==>
              Tagged(PyDict(d), zero) == FromField(Field(d, "value"), ExtractStr, s => Some(VisibleString(s)))
    ensures TypeIs(d, "mms_string") ==>
              Tagged(PyDict(d), zero) == FromField(Field(d, "value"), ExtractStr, s => Some(MmsString(s)))
  {
    TagLiterals();
  }

  /** The tagged octets: a UTC time has 8, a binary time 4 or 6. */
  lemma TaggedOctets(d: map<PyKey, PyValue>, zero: Option<MmsValue>)
    ensures TypeIs(d, "octet_string") ==>
              Tagged(PyDict(d), zero) == FromField(Field(d, "value"), ExtractOctets, o => Some(OctetString(o)))
    ensures TypeIs(d, "utc_time") ==>
              Tagged(PyDict(d), zero) ==
              FromField(Field(d, "value"), ExtractOctets, (o: Octets) => if |o| == 8 then Some(UtcTime(o)) else None)
    ensures TypeIs(d, "binary_time") ==>
              Tagged(PyDict(d), zero) ==
              FromField(Field(d, "value"), ExtractOctets,
                        (o: Octets) => if |o| == 4 || |o| == 6 then Some(BinaryTime(o)) else None)
  {
    TagLiterals();
  }

  /** A tagged bit string is made from its two fields. */
  lemma TaggedBits(d: map<PyKey, PyValue>, zero: Option<MmsValue>, v: MmsValue)
    requires TypeIs(d, "bit_string")
    ensures Tagged(PyDict(d), zero) == Ok(v) <==>
            Field(d, "padding").Some? && Field(d, "data").Some? &&
            BitsOf(Field(d, "padding").value, Field(d, "data").value, v)
  {
    TagLiterals();
    if Field(d, "padding").Some? && Field(d, "data").Some? {
      BitsExactly(Field(d, "padding").value, Field(d, "data").value, v);
    }
  }

  /** A tagged default is the zero value of the attribute, where there is one; a tagged structure is made of its
      components in order. */
  lemma TaggedOthers(d: map<PyKey, PyValue>, zero: Option<MmsValue>, v: MmsValue)
    ensures TypeIs(d, "default") ==> (Tagged(PyDict(d), zero) == Ok(v) <==> zero == Some(v))
    ensures TypeIs(d, "structure") ==>
              (Tagged(PyDict(d), zero) == Ok(v) <==>
               && v.Structure? && Field(d, "value").Some? && Items(Field(d, "value").value).Some?
               && GenericAll(Items(Field(d, "value").value).value) == Ok(v.items))
  {
    TagLiterals();
  }

  const TAGS: set<string> :=
    {"default", "bool", "int", "uint", "float32", "float64", "visible_string", "mms_string", "octet_string", "utc_time",
     "binary_time", "bit_string", "structure"}

  lemma TagsNamed(tag: string)
    ensures KindNamed(tag).Some? ==> tag in TAGS
  {
  }

  /** Without a type, or with one that is no tag, a dict is refused. */
  lemma UnknownTagRefused(d: map<PyKey, PyValue>, zero: Option<MmsValue>)
    requires forall tag <- TAGS :: !TypeIs(d, tag)
    ensures Tagged(PyDict(d), zero) == Raised(ValueError)
  {
    if Name("type") in d && d[Name("type")].PyStr? {
      TagsNamed(d[Name("type")].text);
      assert TypeIs(d, d[Name("type")].text);
    }
  }
}

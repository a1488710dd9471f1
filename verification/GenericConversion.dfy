/** Python values to MMS values without a model to shape them: the plain form and the tagged form call each
    other. Also the outward conversion of MMS values. */
module GenericConversion {
  import opened Common
  import opened BitStrings
  import opened MmsValues

  // What the Python types extract to.

  function ExtractBool(v: PyValue): Option<bool> {
    match v case PyBool(b) => Some(b) case _ => None
  }

  /** Any integer type: Python's `bool` is one. */
  function ExtractInt(v: PyValue): Option<int> {
    match v
    case PyBool(b) => Some(if b then 1 else 0)
    case PyInt(i) => Some(i)
    case _ => None
  }

  function ExtractI64(v: PyValue): Option<I64> {
    match ExtractInt(v)
    case Some(i) => if I64_MIN <= i <= I64_MAX then Some(i) else None
    case None => None
  }

  function ExtractU64(v: PyValue): Option<U64> {
    match ExtractInt(v)
    case Some(i) => if 0 <= i <= U64_MAX then Some(i) else None
    case None => None
  }

  function ExtractU8(v: PyValue): Option<U8> {
    match ExtractInt(v)
    case Some(i) => if 0 <= i <= 0xFF then Some(i) else None
    case None => None
  }

  function Pow2(n: nat): nat {
    if n == 0 then 1 else 2 * Pow2(n - 1)
  }

  /** The smallest integer that rounds past the largest binary64. */
  const DOUBLE_OVERFLOW := Pow2(1024) - Pow2(970)

  function ExtractF64(v: PyValue): Option<F64> {
    match v
    case PyFloat(d) => Some(d)
    case _ =>
      match ExtractInt(v)
      case Some(i) => if -DOUBLE_OVERFLOW < i < DOUBLE_OVERFLOW then Some(OfInt(i)) else None
      case None => None
  }

  function ExtractStr(v: PyValue): Option<string> {
    match v case PyStr(s) => Some(s) case _ => None
  }

  /** A list of octets: from bytes, or from any sequence of small integers. */
  function ExtractOctets(v: PyValue): Option<Octets> {
    match v
    case PyBytes(o) => Some(o)
    case PyByteArray(o) => Some(o)
    case PyList(items) => OctetsOf(items)
    case PyTuple(items) => OctetsOf(items)
    case _ => None
  }

  function OctetsOf(items: seq<PyValue>): Option<Octets> {
    if items == [] then Some([])
    else
      match (ExtractU8(items[0]), OctetsOf(items[1..]))
      case (Some(o), Some(rest)) => Some([o] + rest)
      case _ => None
  }

  function Items(v: PyValue): Option<seq<PyValue>> {
    match v
    case PyList(items) => Some(items)
    case PyTuple(items) => Some(items)
    case _ => None
  }

  // The converters.

  function Checked<T>(o: Option<T>): Result<T> {
    match o
    case Some(v) => Ok(v)
    case None => Raised(ValueError)
  }

  /** `py_value_to_mms_value_generic`. */
  function Generic(v: PyValue): (r: Result<MmsValue>)
    ensures r.Raised? ==> r.error == ValueError
    decreases v, 1
  {
    match v
    case PyBool(b) => Ok(Boolean(b))
    case PyFloat(d) => Ok(Float32(Narrow(d)))
    case PyInt(i) => if I64_MIN <= i <= I64_MAX then Ok(Integer(i)) else Raised(ValueError)
    case PyStr(s) => Ok(VisibleString(s))
    case PyBytes(o) => Ok(OctetString(o))
    case PyByteArray(o) => Ok(OctetString(o))
    case PyList(items) => (match GenericAll(items) case Ok(out) => Ok(Array(out)) case Raised(e) => Raised(e))
    case PyDict(_) => Tagged(v, None)
    case _ => Raised(ValueError)
  }

  function GenericAll(items: seq<PyValue>): (r: Result<seq<MmsValue>>)
    ensures r.Ok? ==> |r.value| == |items|
    ensures r.Raised? ==> r.error == ValueError
    decreases items
  {
    if items == [] then Ok([])
    else
      match Generic(items[0])
      case Raised(e) => Raised(e)
      case Ok(first) =>
        match GenericAll(items[1..])
        case Raised(e) => Raised(e)
        case Ok(rest) => Ok([first] + rest)
  }

  /** The tags of a tagged value. */
  datatype Kind =
    | DefaultKind | BoolKind | IntKind | UintKind | Float32Kind | Float64Kind | VisibleStringKind | MmsStringKind
    | OctetStringKind | UtcTimeKind | BinaryTimeKind | BitStringKind | StructureKind

  function KindName(k: Kind): string {
    match k
    case DefaultKind => "default"
    case BoolKind => "bool"
    case IntKind => "int"
    case UintKind => "uint"
    case Float32Kind => "float32"
    case Float64Kind => "float64"
    case VisibleStringKind => "visible_string"
    case MmsStringKind => "mms_string"
    case OctetStringKind => "octet_string"
    case UtcTimeKind => "utc_time"
    case BinaryTimeKind => "binary_time"
    case BitStringKind => "bit_string"
    case StructureKind => "structure"
  }

  function KindNamed(s: string): Option<Kind> {
    if s == "default" then Some(DefaultKind)
    else if s == "bool" then Some(BoolKind)
    else if s == "int" then Some(IntKind)
    else if s == "uint" then Some(UintKind)
    else if s == "float32" then Some(Float32Kind)
    else if s == "float64" then Some(Float64Kind)
    else if s == "visible_string" then Some(VisibleStringKind)
    else if s == "mms_string" then Some(MmsStringKind)
    else if s == "octet_string" then Some(OctetStringKind)
    else if s == "utc_time" then Some(UtcTimeKind)
    else if s == "binary_time" then Some(BinaryTimeKind)
    else if s == "bit_string" then Some(BitStringKind)
    else if s == "structure" then Some(StructureKind)
    else None
  }

  lemma KindNamedBack(k: Kind)
    ensures KindNamed(KindName(k)) == Some(k)
  {
    assert "uint"[0] != "utc_time"[0] || "uint"[1] != "utc_time"[1];
    assert "float32"[5] != "float64"[5];
    assert "binary_time"[2] != "bit_string"[2];
  }

  function FromBool(v: PyValue): Option<MmsValue> {
    match ExtractBool(v) case Some(b) => Some(Boolean(b)) case None => None
  }

  function FromI64(v: PyValue): Option<MmsValue> {
    match ExtractI64(v) case Some(i) => Some(Integer(i)) case None => None
  }

  function FromU64(v: PyValue): Option<MmsValue> {
    match ExtractU64(v) case Some(u) => Some(Unsigned(u)) case None => None
  }

  function FromF32(v: PyValue): Option<MmsValue> {
    match ExtractF64(v) case Some(d) => Some(Float32(Narrow(d))) case None => None
  }

  function FromF64(v: PyValue): Option<MmsValue> {
    match ExtractF64(v) case Some(d) => Some(Float64(d)) case None => None
  }

  /** The value of a scalar kind other than `bit_string`, from its `value` field. */
  function FromValueField(kind: Kind, v: PyValue): Option<MmsValue> {
    match kind
    case BoolKind => FromBool(v)
    case IntKind => FromI64(v)
    case UintKind => FromU64(v)
    case Float32Kind => FromF32(v)
    case Float64Kind => FromF64(v)
    case VisibleStringKind => (match ExtractStr(v) case Some(s) => Some(VisibleString(s)) case None => None)
    case MmsStringKind => (match ExtractStr(v) case Some(s) => Some(MmsString(s)) case None => None)
    case OctetStringKind => (match ExtractOctets(v) case Some(o) => Some(OctetString(o)) case None => None)
    case UtcTimeKind =>
      (match ExtractOctets(v) case Some(o) => if |o| == 8 then Some(UtcTime(o)) else None case None => None)
    case BinaryTimeKind =>
      (match ExtractOctets(v)
       case Some(o) => if |o| == 4 || |o| == 6 then Some(BinaryTime(o)) else None
       case None => None)
    case _ => None
  }

  function FromBitFields(padding: PyValue, data: PyValue): Option<MmsValue> {
    match (ExtractU8(padding), ExtractOctets(data))
    case (Some(p), Some(octets)) =>
      if PaddingAllowed(|octets|, p) then Some(BitString(p, ClearTrailing(octets, p))) else None
    case _ => None
  }

  /** `tagged_value_to_mms_value` for a tag other than `structure`; `zero` is what a `default` resolves to,
      when the attribute type is known. */
  function TaggedScalar(kind: Kind, d: map<PyKey, PyValue>, zero: Option<MmsValue>): Option<MmsValue> {
    match kind
    case DefaultKind => zero
    case BitStringKind =>
      if Name("padding") in d && Name("data") in d then FromBitFields(d[Name("padding")], d[Name("data")]) else None
    case _ => if Name("value") in d then FromValueField(kind, d[Name("value")]) else None
  }

  function KindOfDict(d: map<PyKey, PyValue>): Option<Kind> {
    if Name("type") in d && d[Name("type")].PyStr? then KindNamed(d[Name("type")].text) else None
  }

  /** `tagged_value_to_mms_value`. */
  function Tagged(v: PyValue, zero: Option<MmsValue>): (r: Result<MmsValue>)
    requires v.PyDict?
    ensures r.Raised? ==> r.error == ValueError
    decreases v, 0
  {
    match KindOfDict(v.entries)
    case None => Raised(ValueError)
    case Some(StructureKind) =>
      if Name("value") !in v.entries then Raised(ValueError)
      else
        var value := v.entries[Name("value")];
        if value.PyList? || value.PyTuple? then
          assert value < v;
          match GenericAll(value.items)
          case Ok(out) => Ok(Structure(out))
          case Raised(e) => Raised(e)
        else Raised(ValueError)
    case Some(kind) => Checked(TaggedScalar(kind, v.entries, zero))
  }

  /** `mms_value_to_pyobject`. */
  function ToPy(v: MmsValue): PyValue {
    match v
    case Boolean(b) => PyBool(b)
    case Integer(i) => PyInt(i)
    case Unsigned(u) => PyInt(u)
    case Float32(f) => PyFloat(Widen(f))
    case Float64(d) => PyFloat(d)
    case VisibleString(s) => PyStr(s)
    case MmsString(s) => PyStr(s)
    case OctetString(o) => PyBytes(o)
    case UtcTime(o) => PyBytes(o)
    case BinaryTime(o) => PyBytes(o)
    case BitString(_, data) => PyBytes(data)
    case Array(items) => PyList(ToPyAll(items))
    case Structure(items) => PyList(ToPyAll(items))
  }

  function ToPyAll(vs: seq<MmsValue>): (r: seq<PyValue>)
    ensures |r| == |vs|
  {
    if vs == [] then [] else [ToPy(vs[0])] + ToPyAll(vs[1..])
  }

  // What comes out.

  /** Every bit string in the value is canonical. */
  predicate BitStringsCanonical(v: MmsValue) {
    match v
    case BitString(padding, data) => Canonical(padding, data)
    case Array(items) => AllBitStringsCanonical(items)
    case Structure(items) => AllBitStringsCanonical(items)
    case _ => true
  }

  predicate AllBitStringsCanonical(vs: seq<MmsValue>) {
    vs == [] || (BitStringsCanonical(vs[0]) && AllBitStringsCanonical(vs[1..]))
  }

  /** A value the generic conversion can produce. */
  predicate Producible(v: MmsValue) {
    match v
    case BitString(padding, data) => Canonical(padding, data)
    case UtcTime(o) => |o| == 8
    case BinaryTime(o) => |o| == 4 || |o| == 6
    case Array(items) => AllProducible(items)
    case Structure(items) => AllProducible(items)
    case _ => true
  }

  predicate AllProducible(vs: seq<MmsValue>) {
    vs == [] || (Producible(vs[0]) && AllProducible(vs[1..]))
  }

  /** A Python value that stands for `v`: tagged, except for an array, which has a plain form only. */
  function Tag(v: MmsValue): PyValue {
    match v
    case Array(items) => PyList(TagAll(items))
    case Structure(items) => WithValue(StructureKind, PyList(TagAll(items)))
    case BitString(padding, data) => WithBits(PyInt(padding), PyBytes(data))
    case _ => WithValue(KindOf(v), ToPy(v))
  }

  function WithBits(padding: PyValue, data: PyValue): PyValue {
    PyDict(map[Name("type") := PyStr(KindName(BitStringKind)), Name("padding") := padding, Name("data") := data])
  }

  function WithValue(kind: Kind, value: PyValue): PyValue {
    PyDict(map[Name("type") := PyStr(KindName(kind)), Name("value") := value])
  }

  function TagAll(vs: seq<MmsValue>): (r: seq<PyValue>)
    ensures |r| == |vs|
  {
    if vs == [] then [] else [Tag(vs[0])] + TagAll(vs[1..])
  }

  function KindOf(v: MmsValue): Kind {
    match v
    case Boolean(_) => BoolKind
    case Integer(_) => IntKind
    case Unsigned(_) => UintKind
    case Float32(_) => Float32Kind
    case Float64(_) => Float64Kind
    case VisibleString(_) => VisibleStringKind
    case MmsString(_) => MmsStringKind
    case OctetString(_) => OctetStringKind
    case UtcTime(_) => UtcTimeKind
    case BinaryTime(_) => BinaryTimeKind
    case BitString(_, _) => BitStringKind
    case Array(_) => DefaultKind
    case Structure(_) => StructureKind
  }

  lemma FromBitFieldsCanonical(padding: PyValue, data: PyValue)
    requires FromBitFields(padding, data).Some?
    ensures var v := FromBitFields(padding, data).value;
            && v.BitString? && Canonical(v.padding, v.data) && ExtractU8(padding) == Some(v.padding)
            && ExtractOctets(data).Some? && |v.data| == |ExtractOctets(data).value|
            && (forall i, b: nat :: 0 <= i < |v.data| ==>
                  Bit(v.data[i], b) ==
                  if i == |v.data| - 1 && b < v.padding then 0 else Bit(ExtractOctets(data).value[i], b))
  {
    ClearTrailingBits(ExtractOctets(data).value, ExtractU8(padding).value);
  }

  lemma TaggedScalarProducible(kind: Kind, d: map<PyKey, PyValue>)
    requires kind != StructureKind && TaggedScalar(kind, d, None).Some?
    ensures Producible(TaggedScalar(kind, d, None).value)
  {
    if kind == BitStringKind {
      FromBitFieldsCanonical(d[Name("padding")], d[Name("data")]);
    }
  }

  lemma {:induction false} GenericProducible(v: PyValue)
    requires Generic(v).Ok?
    ensures Producible(Generic(v).value)
    decreases v, 1
  {
    if v.PyList? {
      GenericAllProducible(v.items);
    } else if v.PyDict? {
      TaggedProducible(v);
    }
  }

  lemma {:induction false} TaggedProducible(v: PyValue)
    requires v.PyDict? && Tagged(v, None).Ok?
    ensures Producible(Tagged(v, None).value)
    decreases v, 0
  {
    var kind := KindOfDict(v.entries).value;
    if kind == StructureKind {
      var value := v.entries[Name("value")];
      assert value < v;
      GenericAllProducible(value.items);
    } else {
      TaggedScalarProducible(kind, v.entries);
    }
  }

  lemma {:induction false} GenericAllProducible(items: seq<PyValue>)
    requires GenericAll(items).Ok?
    ensures AllProducible(GenericAll(items).value)
    decreases items, 0
  {
    if items != [] {
      GenericProducible(items[0]);
      GenericAllProducible(items[1..]);
      assert GenericAll(items).value[1..] == GenericAll(items[1..]).value;
    }
  }

  lemma WithValueFields(kind: Kind, value: PyValue)
    ensures var d := WithValue(kind, value).entries;
            KindOfDict(d) == Some(kind) && Name("value") in d && d[Name("value")] == value
  {
    KindNamedBack(kind);
    assert "type"[0] != "value"[0];
  }

  lemma WithBitsFields(padding: PyValue, data: PyValue)
    ensures var d := WithBits(padding, data).entries;
            && KindOfDict(d) == Some(BitStringKind)
            && Name("padding") in d && d[Name("padding")] == padding
            && Name("data") in d && d[Name("data")] == data
  {
    KindNamedBack(BitStringKind);
    assert "type"[0] != "padding"[0] && "type"[0] != "data"[0] && "padding"[0] != "data"[0];
  }

  lemma ScalarBack(v: MmsValue)
    requires Producible(v) && !v.Array? && !v.Structure? && !v.BitString?
    ensures FromValueField(KindOf(v), ToPy(v)) == Some(v)
  {
  }

  lemma ScalarTagConverts(v: MmsValue)
    requires Producible(v) && !v.Array? && !v.Structure?
    ensures Tag(v).PyDict? && Tagged(Tag(v), None) == Ok(v)
  {
    if v.BitString? {
      WithBitsFields(PyInt(v.padding), PyBytes(v.data));
    } else {
      WithValueFields(KindOf(v), ToPy(v));
      ScalarBack(v);
    }
  }

  lemma GenericAllCons(p: PyValue, v: MmsValue, ps: seq<PyValue>, vs: seq<MmsValue>)
    requires Generic(p) == Ok(v) && GenericAll(ps) == Ok(vs)
    ensures GenericAll([p] + ps) == Ok([v] + vs)
  {
    assert ([p] + ps)[1..] == ps;
  }

  lemma StructureTagConverts(tags: seq<PyValue>, items: seq<MmsValue>)
    requires GenericAll(tags) == Ok(items)
    ensures Generic(WithValue(StructureKind, PyList(tags))) == Ok(Structure(items))
  {
    WithValueFields(StructureKind, PyList(tags));
  }

  lemma {:induction false} TagConverts(v: MmsValue)
    requires Producible(v)
    ensures Generic(Tag(v)) == Ok(v)
    decreases v, 1
  {
    if v.Array? {
      TagAllConverts(v.items);
    } else if v.Structure? {
      TagAllConverts(v.items);
      StructureTagConverts(TagAll(v.items), v.items);
    } else {
      ScalarTagConverts(v);
    }
  }

  lemma {:induction false} TagAllConverts(vs: seq<MmsValue>)
    requires AllProducible(vs)
    ensures GenericAll(TagAll(vs)) == Ok(vs)
    decreases vs, 0
  {
    if vs != [] {
      TagConverts(vs[0]);
      TagAllConverts(vs[1..]);
      GenericAllCons(Tag(vs[0]), vs[0], TagAll(vs[1..]), vs[1..]);
      assert vs == [vs[0]] + vs[1..];
    }
  }

  /** The plain and tagged forms together reach a value exactly when its bit strings are canonical, its
      UTC times have 8 octets and its binary times 4 or 6, at every depth. */
  lemma GenericReach(v: MmsValue)
    ensures (exists p :: Generic(p) == Ok(v)) <==> Producible(v)
  {
    if Producible(v) {
      TagConverts(v);
    }
    if p :| Generic(p) == Ok(v) {
      GenericProducible(p);
    }
  }
}

/** The shaped conversion told case by case: for every value, every attribute and every result, when one is read as the
    other; and its round trip for bit strings written out as pairs. */
module ShapedTables {
  import opened Common
  import opened BitStrings
  import opened MmsValues
  import opened GenericConversion
  import opened ConversionTables
  import opened ShapedConversion
  import opened IedModel

  /** What a plain value stands for at a leaf that holds `held`. A bit string is the pair of its octets and its
      padding. */
  ghost predicate LeafOf(v: PyValue, held: MmsValue, x: MmsValue) {
    match held
    case Boolean(_) => v.PyBool? && x == Boolean(v.b)
    case Integer(_) => v.PyInt? && x.Integer? && x.i as int == v.i
    case Unsigned(_) => v.PyInt? && x.Unsigned? && x.u as int == v.i
    case Float32(_) => exists f: F64 :: ExtractF64(v) == Some(f) && x == Float32(Narrow(f))
    case Float64(_) => exists f: F64 :: ExtractF64(v) == Some(f) && x == Float64(f)
    case VisibleString(_) => v.PyStr? && x == VisibleString(v.text)
    case MmsString(_) => v.PyStr? && x == MmsString(v.text)
    case OctetString(_) => v.PyBytes? && x == OctetString(v.octets)
    case UtcTime(_) => v.PyBytes? && |v.octets| == 8 && x == UtcTime(v.octets)
    case BinaryTime(_) => v.PyBytes? && x == BinaryTime(v.octets)
    case BitString(_, _) => v.PyTuple? && |v.items| == 2 && BitsOf(v.items[1], v.items[0], x)
    case Array(_) => false
    case Structure(_) => false
  }

  lemma LeafExactly(v: PyValue, held: MmsValue, x: MmsValue)
    ensures Leaf(v, held) == Some(x) <==> LeafOf(v, held, x)
  {
    match held
    case BitString(_, _) =>
      if v.PyTuple? && |v.items| == 2 {
        BitsExactly(v.items[1], v.items[0], x);
      }
    case Integer(_) => IntegerLeaf(v, x);
    case Unsigned(_) => UnsignedLeaf(v, x);
    case _ =>
  }

  lemma IntegerLeaf(v: PyValue, x: MmsValue)
    ensures (if v.PyBool? then None else FromI64(v)) == Some(x) <==> v.PyInt? && x.Integer? && x.i as int == v.i
  {
    if v.PyInt? {
      IntegersExactly(v, v.i);
    }
  }

  lemma UnsignedLeaf(v: PyValue, x: MmsValue)
    ensures (if v.PyBool? then None else FromU64(v)) == Some(x) <==> v.PyInt? && x.Unsigned? && x.u as int == v.i
  {
    if v.PyInt? {
      IntegersExactly(v, v.i);
    }
  }

  /** One item per child. */
  ghost predicate ItemsReadAs(items: seq<PyValue>, children: seq<DataAttribute>, xs: seq<MmsValue>)
    decreases children, 0
  {
    && |items| == |children| == |xs|
    && forall i :: 0 <= i < |children| ==> ReadAs(items[i], children[i], xs[i])
  }

  /** One member per child, looked up by name, in a dict that has as many entries as there are children. */
  ghost predicate MembersReadAs(d: map<PyKey, PyValue>, children: seq<DataAttribute>, xs: seq<MmsValue>)
    decreases children, 0
  {
    && |d| == |children| == |xs|
    && forall i :: 0 <= i < |children| ==>
         Name(children[i].name) in d && ReadAs(d[Name(children[i].name)], children[i], xs[i])
  }

  /** A list or tuple is read as an array or a structure, a dict of the members as a structure, and at a leaf a dict
      as a tagged value and anything else as a plain one. */
  ghost predicate ReadAs(v: PyValue, da: DataAttribute, x: MmsValue)
    decreases da, 1
  {
    if da.isArray then x.Array? && Items(v).Some? && ItemsReadAs(Items(v).value, da.children, x.items)
    else if da.ty.Constructed? then
      && x.Structure?
      && if v.PyDict? then MembersReadAs(v.entries, da.children, x.items)
         else Items(v).Some? && ItemsReadAs(Items(v).value, da.children, x.items)
    else if v.PyDict? then Tagged(v, Some(da.ty.zero)) == Ok(x)
    else LeafOf(v, da.held, x)
  }

  /** For every input, every attribute and every value: exactly when the conversion gives it. */
  lemma {:induction false} ShapedExactly(v: PyValue, da: DataAttribute, x: MmsValue)
    ensures Shaped(v, da) == Ok(x) <==> ReadAs(v, da, x)
    decreases da, 1
  {
    if da.isArray {
      if Items(v).Some? && |Items(v).value| == |da.children| && x.Array? {
        ItemsExactly(Items(v).value, da.children, x.items);
      }
    } else if da.ty.Constructed? {
      if x.Structure? {
        StructureExactly(v, da, x.items);
      }
    } else if !v.PyDict? {
      LeafExactly(v, da.held, x);
    }
  }

  lemma {:induction false} StructureExactly(v: PyValue, da: DataAttribute, xs: seq<MmsValue>)
    requires !da.isArray && da.ty.Constructed?
    ensures Shaped(v, da) == Ok(Structure(xs)) <==> ReadAs(v, da, Structure(xs))
    decreases da, 0
  {
    if v.PyDict? {
      if |v.entries| == |da.children| {
        MembersExactly(v.entries, da.children, xs);
      }
    } else if Items(v).Some? && |Items(v).value| == |da.children| {
      ItemsExactly(Items(v).value, da.children, xs);
    }
  }

  lemma ItemsHead(items: seq<PyValue>, children: seq<DataAttribute>, xs: seq<MmsValue>)
    requires |items| == |children| && children != [] && xs != []
    ensures ItemsReadAs(items, children, xs) <==>
            ReadAs(items[0], children[0], xs[0]) && ItemsReadAs(items[1..], children[1..], xs[1..])
  {
    if ReadAs(items[0], children[0], xs[0]) && ItemsReadAs(items[1..], children[1..], xs[1..]) {
      forall i | 0 <= i < |children| ensures ReadAs(items[i], children[i], xs[i]) {
        if i > 0 {
          assert items[i] == items[1..][i - 1] && children[i] == children[1..][i - 1] && xs[i] == xs[1..][i - 1];
        }
      }
    }
    if ItemsReadAs(items, children, xs) {
      forall i | 0 <= i < |children| - 1 ensures ReadAs(items[1..][i], children[1..][i], xs[1..][i]) {
        assert items[1..][i] == items[i + 1] && children[1..][i] == children[i + 1] && xs[1..][i] == xs[i + 1];
      }
    }
  }

  lemma {:induction false} ItemsExactly(items: seq<PyValue>, children: seq<DataAttribute>, xs: seq<MmsValue>)
    requires |items| == |children|
    ensures ShapedAll(items, children) == Ok(xs) <==> ItemsReadAs(items, children, xs)
    decreases children, 0
  {
    if children != [] && xs != [] {
      ShapedExactly(items[0], children[0], xs[0]);
      ItemsExactly(items[1..], children[1..], xs[1..]);
      ItemsHead(items, children, xs);
      assert xs == [xs[0]] + xs[1..];
    }
  }

  /** The members read so far, without regard to the size of the dict. */
  ghost predicate NamedReadAs(d: map<PyKey, PyValue>, children: seq<DataAttribute>, xs: seq<MmsValue>) {
    && |children| == |xs|
    && forall i :: 0 <= i < |children| ==>
         Name(children[i].name) in d && ReadAs(d[Name(children[i].name)], children[i], xs[i])
  }

  lemma NamedHead(d: map<PyKey, PyValue>, children: seq<DataAttribute>, xs: seq<MmsValue>)
    requires children != [] && xs != []
    ensures NamedReadAs(d, children, xs) <==>
            && Name(children[0].name) in d && ReadAs(d[Name(children[0].name)], children[0], xs[0])
            && NamedReadAs(d, children[1..], xs[1..])
  {
    if NamedReadAs(d, children[1..], xs[1..]) && |children| == |xs| {
      forall i | 1 <= i < |children|
        ensures Name(children[i].name) in d && ReadAs(d[Name(children[i].name)], children[i], xs[i])
      {
        assert children[i] == children[1..][i - 1] && xs[i] == xs[1..][i - 1];
      }
    }
    if NamedReadAs(d, children, xs) {
      forall i | 0 <= i < |children| - 1
        ensures Name(children[1..][i].name) in d && ReadAs(d[Name(children[1..][i].name)], children[1..][i], xs[1..][i])
      {
        assert children[1..][i] == children[i + 1] && xs[1..][i] == xs[i + 1];
      }
    }
  }

  lemma {:induction false} MembersExactly(d: map<PyKey, PyValue>, children: seq<DataAttribute>, xs: seq<MmsValue>)
    ensures ShapedByName(d, children) == Ok(xs) <==> NamedReadAs(d, children, xs)
    decreases children, 0
  {
    if children != [] && xs != [] {
      MembersExactly(d, children[1..], xs[1..]);
      if Name(children[0].name) in d {
        ShapedExactly(d[Name(children[0].name)], children[0], xs[0]);
      }
      NamedHead(d, children, xs);
      assert xs == [xs[0]] + xs[1..];
    }
  }

  // Bit strings as pairs.

  /** The outward form, but for each bit string the pair of its octets and its padding. */
  function Paired(v: MmsValue): PyValue {
    match v
    case BitString(padding, data) => PyTuple([PyBytes(data), PyInt(padding)])
    case Array(items) => PyList(PairedAll(items))
    case Structure(items) => PyList(PairedAll(items))
    case _ => ToPy(v)
  }

  function PairedAll(vs: seq<MmsValue>): (r: seq<PyValue>)
    ensures |r| == |vs|
  {
    if vs == [] then [] else [Paired(vs[0])] + PairedAll(vs[1..])
  }

  /** A canonical bit string is taken from its pair, octets first. */
  lemma PairTaken(padding: U8, data: Octets, held: MmsValue)
    requires held.BitString? && Canonical(padding, data)
    ensures Leaf(PyTuple([PyBytes(data), PyInt(padding)]), held) == Some(BitString(padding, data))
  {
  }

  /** With bit strings written as pairs, every conforming value comes back, at every depth. */
  lemma {:induction false} ShapedUndoesPaired(v: MmsValue, da: DataAttribute)
    requires Conforms(v, da)
    ensures Shaped(Paired(v), da) == Ok(v)
    decreases da, 1
  {
    if da.isArray || da.ty.Constructed? {
      AllShapedUndoPaired(v.items, da.children);
    } else if v.BitString? {
      PairTaken(v.padding, v.data, da.held);
    } else {
      ShapedUndoesToPy(v, da);
    }
  }

  lemma {:induction false} AllShapedUndoPaired(vs: seq<MmsValue>, children: seq<DataAttribute>)
    requires AllConform(vs, children)
    ensures ShapedAll(PairedAll(vs), children) == Ok(vs)
    decreases children, 0
  {
    if vs != [] {
      ShapedUndoesPaired(vs[0], children[0]);
      AllShapedUndoPaired(vs[1..], children[1..]);
      assert PairedAll(vs)[1..] == PairedAll(vs[1..]);
      assert vs == [vs[0]] + vs[1..];
    }
  }
}

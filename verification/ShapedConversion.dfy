/** Python values to MMS values shaped like a data attribute of the model. */
module ShapedConversion {
  import opened Common
  import opened BitStrings
  import opened MmsValues
  import opened GenericConversion
  import opened IedModel

  /** A plain value of the variant the attribute holds. */
  function Leaf(v: PyValue, held: MmsValue): Option<MmsValue> {
    match held
    case Boolean(_) => FromBool(v)
    case Integer(_) => if v.PyBool? then None else FromI64(v)
    case Unsigned(_) => if v.PyBool? then None else FromU64(v)
    case Float32(_) => FromF32(v)
    case Float64(_) => FromF64(v)
    case VisibleString(_) => if v.PyStr? then Some(VisibleString(v.text)) else None
    case MmsString(_) => if v.PyStr? then Some(MmsString(v.text)) else None
    case OctetString(_) => if v.PyBytes? then Some(OctetString(v.octets)) else None
    case UtcTime(_) => if v.PyBytes? && |v.octets| == 8 then Some(UtcTime(v.octets)) else None
    case BinaryTime(_) => if v.PyBytes? then Some(BinaryTime(v.octets)) else None
    case BitString(_, _) => if v.PyTuple? && |v.items| == 2 then FromBitFields(v.items[1], v.items[0]) else None
    case Array(_) => None
    case Structure(_) => None
  }

  /** `py_value_to_mms_value_shaped`. */
  function Shaped(v: PyValue, da: DataAttribute): (r: Result<MmsValue>)
    ensures r.Raised? ==> r.error == ValueError
    decreases da, 1
  {
    if da.isArray then InArray(ShapedItems(v, da))
    else if da.ty.Constructed? then
      InStructure(if v.PyDict? then ShapedMembers(v.entries, da) else ShapedItems(v, da))
    else if v.PyDict? then Tagged(v, Some(da.ty.zero))
    else Checked(Leaf(v, da.held))
  }

  function InArray(items: Result<seq<MmsValue>>): Result<MmsValue> {
    match items case Ok(out) => Ok(Array(out)) case Raised(e) => Raised(e)
  }

  function InStructure(items: Result<seq<MmsValue>>): Result<MmsValue> {
    match items case Ok(out) => Ok(Structure(out)) case Raised(e) => Raised(e)
  }

  /** One item per child, from a list or a tuple. */
  function ShapedItems(v: PyValue, da: DataAttribute): (r: Result<seq<MmsValue>>)
    ensures r.Raised? ==> r.error == ValueError
    decreases da, 0
  {
    match Items(v)
    case None => Raised(ValueError)
    case Some(items) => if |items| != |da.children| then Raised(ValueError) else ShapedAll(items, da.children)
  }

  /** One member per child, from a dict that has as many entries as there are children. */
  function ShapedMembers(d: map<PyKey, PyValue>, da: DataAttribute): (r: Result<seq<MmsValue>>)
    ensures r.Raised? ==> r.error == ValueError
    decreases da, 0
  {
    if |d| != |da.children| then Raised(ValueError) else ShapedByName(d, da.children)
  }

  function ShapedAll(items: seq<PyValue>, children: seq<DataAttribute>): (r: Result<seq<MmsValue>>)
    requires |items| == |children|
    ensures r.Ok? ==> |r.value| == |items|
    ensures r.Raised? ==> r.error == ValueError
    decreases children
  {
    if items == [] then Ok([]) else Cons(Shaped(items[0], children[0]), ShapedAll(items[1..], children[1..]))
  }

  function ShapedByName(d: map<PyKey, PyValue>, children: seq<DataAttribute>): (r: Result<seq<MmsValue>>)
    ensures r.Raised? ==> r.error == ValueError
    decreases children
  {
    if children == [] then Ok([])
    else if Name(children[0].name) !in d then Raised(ValueError)
    else Cons(Shaped(d[Name(children[0].name)], children[0]), ShapedByName(d, children[1..]))
  }

  function Cons(first: Result<MmsValue>, rest: Result<seq<MmsValue>>): Result<seq<MmsValue>> {
    match (first, rest)
    case (Raised(e), _) => Raised(e)
    case (_, Raised(e)) => Raised(e)
    case (Ok(x), Ok(xs)) => Ok([x] + xs)
  }

  // Shape of a value.

  /** The value has the shape of the attribute, variant by variant. */
  predicate Conforms(v: MmsValue, da: DataAttribute)
    decreases da, 1
  {
    if da.isArray then v.Array? && AllConform(v.items, da.children)
    else if da.ty.Constructed? then v.Structure? && AllConform(v.items, da.children)
    else SameVariant(v, da.held)
  }

  predicate AllConform(vs: seq<MmsValue>, children: seq<DataAttribute>)
    decreases children, 0
  {
    && |vs| == |children|
    && (vs == [] || (Conforms(vs[0], children[0]) && AllConform(vs[1..], children[1..])))
  }

  /** The same scalar variant, with what that variant itself demands. */
  predicate SameVariant(v: MmsValue, held: MmsValue) {
    match (v, held)
    case (Boolean(_), Boolean(_)) => true
    case (Integer(_), Integer(_)) => true
    case (Unsigned(_), Unsigned(_)) => true
    case (Float32(_), Float32(_)) => true
    case (Float64(_), Float64(_)) => true
    case (VisibleString(_), VisibleString(_)) => true
    case (MmsString(_), MmsString(_)) => true
    case (OctetString(_), OctetString(_)) => true
    case (UtcTime(o), UtcTime(_)) => |o| == 8
    case (BinaryTime(_), BinaryTime(_)) => true
    case (BitString(padding, data), BitString(_, _)) => Canonical(padding, data)
    case _ => false
  }

  predicate HasBitString(v: MmsValue) {
    match v
    case BitString(_, _) => true
    case Array(items) => AnyBitString(items)
    case Structure(items) => AnyBitString(items)
    case _ => false
  }

  predicate AnyBitString(vs: seq<MmsValue>) {
    vs != [] && (HasBitString(vs[0]) || AnyBitString(vs[1..]))
  }

  /** Converting a conforming value outward and back restores it, variants included, exactly when it holds no
      bit string; with one, at any depth, the way back is refused. */
  lemma {:induction false} ShapedUndoesToPy(v: MmsValue, da: DataAttribute)
    requires Conforms(v, da)
    ensures Shaped(ToPy(v), da) == if HasBitString(v) then Raised(ValueError) else Ok(v)
    decreases da, 1
  {
    if da.isArray || da.ty.Constructed? {
      AllShapedUndoToPy(v.items, da.children);
    }
  }

  lemma {:induction false} AllShapedUndoToPy(vs: seq<MmsValue>, children: seq<DataAttribute>)
    requires AllConform(vs, children)
    ensures ShapedAll(ToPyAll(vs), children) == if AnyBitString(vs) then Raised(ValueError) else Ok(vs)
    decreases children, 0
  {
    if vs != [] {
      ShapedUndoesToPy(vs[0], children[0]);
      AllShapedUndoToPy(vs[1..], children[1..]);
      assert ToPyAll(vs)[1..] == ToPyAll(vs[1..]);
      assert vs == [vs[0]] + vs[1..];
    }
  }

  // The dict form of a constructed attribute.

  function MemberKeys(children: seq<DataAttribute>): set<PyKey> {
    set i | 0 <= i < |children| :: Name(children[i].name)
  }

  predicate NamesDistinct(children: seq<DataAttribute>) {
    forall i, j :: 0 <= i < j < |children| ==> children[i].name != children[j].name
  }

  /** There are as many keys as members exactly when no name repeats. */
  lemma {:induction false} MemberKeyCount(children: seq<DataAttribute>)
    ensures |MemberKeys(children)| <= |children|
    ensures |MemberKeys(children)| == |children| <==> NamesDistinct(children)
  {
    if children != [] {
      var last := |children| - 1;
      var init, key := children[..last], Name(children[last].name);
      MemberKeyCount(init);
      assert MemberKeys(children) == MemberKeys(init) + {key};
      if key in MemberKeys(init) {
        assert MemberKeys(children) == MemberKeys(init);
        var i :| 0 <= i < last && Name(init[i].name) == key;
        assert children[i].name == children[last].name;
      } else {
        forall i, j | 0 <= i < j < |children| && NamesDistinct(init)
          ensures children[i].name != children[j].name
        {
          assert i < last && Name(init[i].name) in MemberKeys(init);
          assert j < last ==> children[j] == init[j];
        }
        assert NamesDistinct(children) ==> NamesDistinct(init);
      }
    }
  }

  lemma SameSizeSubset<T>(a: set<T>, b: set<T>)
    requires a <= b && |a| == |b|
    ensures a == b
  {
    assert |b - a| == |b| - |a|;
  }

  /** The members of a dict in model order. */
  function InOrder(d: map<PyKey, PyValue>, children: seq<DataAttribute>): (items: seq<PyValue>)
    requires MemberKeys(children) <= d.Keys
    ensures |items| == |children|
  {
    seq(|children|, i requires 0 <= i < |children| =>
      assert Name(children[i].name) in MemberKeys(children); d[Name(children[i].name)])
  }

  lemma {:induction false} ByNameIsInOrder(d: map<PyKey, PyValue>, children: seq<DataAttribute>)
    ensures ShapedByName(d, children).Ok? ==> MemberKeys(children) <= d.Keys
    ensures MemberKeys(children) <= d.Keys ==> ShapedByName(d, children) == ShapedAll(InOrder(d, children), children)
  {
    if children != [] {
      ByNameIsInOrder(d, children[1..]);
      assert MemberKeys(children) == {Name(children[0].name)} + MemberKeys(children[1..]) by {
        forall k | k in MemberKeys(children) ensures k in {Name(children[0].name)} + MemberKeys(children[1..]) {
          var i :| 0 <= i < |children| && k == Name(children[i].name);
          assert i > 0 ==> children[i] == children[1..][i - 1];
        }
        forall k | k in MemberKeys(children[1..]) ensures k in MemberKeys(children) {
          var i :| 0 <= i < |children| - 1 && k == Name(children[1..][i].name);
          assert children[i + 1] == children[1..][i];
        }
      }
      if MemberKeys(children) <= d.Keys {
        assert InOrder(d, children)[1..] == InOrder(d, children[1..]);
      }
    }
  }

  /** As many entries as there are members, and one under each member name: all that is looked at. */
  predicate NamesMembers(d: map<PyKey, PyValue>, children: seq<DataAttribute>) {
    |d| == |children| && MemberKeys(children) <= d.Keys
  }

  /** A dict is taken for a constructed attribute exactly as the list of its members in model order is, when it has as
      many entries as there are members and one under each member name; otherwise it is refused. */
  lemma DictIsList(d: map<PyKey, PyValue>, da: DataAttribute)
    requires !da.isArray && da.ty.Constructed?
    ensures Shaped(PyDict(d), da) ==
            if NamesMembers(d, da.children) then Shaped(PyList(InOrder(d, da.children)), da) else Raised(ValueError)
  {
    ByNameIsInOrder(d, da.children);
  }

  /** That comes to having exactly the member names as keys when no name repeats. Where one does, a dict of the member
      names alone is refused, and one is accepted only with a key that names no member. */
  lemma MembersNamed(d: map<PyKey, PyValue>, children: seq<DataAttribute>)
    ensures NamesDistinct(children) ==> (NamesMembers(d, children) <==> d.Keys == MemberKeys(children))
    ensures !NamesDistinct(children) && NamesMembers(d, children) ==> MemberKeys(children) < d.Keys
  {
    MemberKeyCount(children);
    assert |d| == |d.Keys|;
    if NamesDistinct(children) && NamesMembers(d, children) {
      SameSizeSubset(MemberKeys(children), d.Keys);
    }
    if !NamesDistinct(children) && NamesMembers(d, children) {
      assert MemberKeys(children) != d.Keys;
    }
  }

  /** Where a member name repeats, the dict of exactly the member names is refused. */
  lemma RepeatedNamesRefused(d: map<PyKey, PyValue>, da: DataAttribute)
    requires !da.isArray && da.ty.Constructed? && !NamesDistinct(da.children)
    requires d.Keys == MemberKeys(da.children)
    ensures Shaped(PyDict(d), da) == Raised(ValueError)
  {
    MembersNamed(d, da.children);
    DictIsList(d, da);
  }

  /** `v` with every dict met at a constructed attribute written as a list: the members in model order when it names
      them, something no attribute takes otherwise. */
  function Positional(v: PyValue, da: DataAttribute): PyValue
    decreases da, 1
  {
    if !da.isArray && da.ty.Basic? then v
    else if !da.isArray && v.PyDict? then
      if NamesMembers(v.entries, da.children)
      then PyList(PositionalAll(InOrder(v.entries, da.children), da.children))
      else PyNone
    else if Items(v).Some? && |Items(v).value| == |da.children| then PyList(PositionalAll(Items(v).value, da.children))
    else v
  }

  function PositionalAll(items: seq<PyValue>, children: seq<DataAttribute>): (r: seq<PyValue>)
    requires |items| == |children|
    ensures |r| == |items|
    decreases children, 0
  {
    if items == [] then [] else [Positional(items[0], children[0])] + PositionalAll(items[1..], children[1..])
  }

  /** An array or a structure, from its converted items. */
  function Assembled(da: DataAttribute, items: Result<seq<MmsValue>>): Result<MmsValue> {
    if da.isArray then InArray(items) else InStructure(items)
  }

  lemma ShapedOfItems(v: PyValue, da: DataAttribute)
    requires (da.isArray || da.ty.Constructed?) && Items(v).Some? && |Items(v).value| == |da.children|
    ensures Shaped(v, da) == Assembled(da, ShapedAll(Items(v).value, da.children))
  {
  }

  lemma SameItems(v: PyValue, w: PyValue, da: DataAttribute)
    requires (da.isArray || da.ty.Constructed?) && Items(v).Some? && Items(w).Some?
    requires |Items(v).value| == |da.children| == |Items(w).value|
    requires ShapedAll(Items(v).value, da.children) == ShapedAll(Items(w).value, da.children)
    ensures Shaped(v, da) == Shaped(w, da)
  {
    ShapedOfItems(v, da);
    ShapedOfItems(w, da);
  }

  /** At every depth the dict form is read as the list form. */
  lemma {:induction false} DictsAreLists(v: PyValue, da: DataAttribute)
    ensures Shaped(v, da) == Shaped(Positional(v, da), da)
    decreases da, 1
  {
    if !da.isArray && da.ty.Basic? {
    } else if !da.isArray && v.PyDict? {
      DictIsList(v.entries, da);
      if NamesMembers(v.entries, da.children) {
        var items := InOrder(v.entries, da.children);
        AllDictsAreLists(items, da.children);
        SameItems(PyList(items), PyList(PositionalAll(items, da.children)), da);
      }
    } else if Items(v).Some? && |Items(v).value| == |da.children| {
      var items := Items(v).value;
      AllDictsAreLists(items, da.children);
      SameItems(v, PyList(PositionalAll(items, da.children)), da);
    }
  }

  lemma {:induction false} AllDictsAreLists(items: seq<PyValue>, children: seq<DataAttribute>)
    requires |items| == |children|
    ensures ShapedAll(items, children) == ShapedAll(PositionalAll(items, children), children)
    decreases children, 0
  {
    if items != [] {
      DictsAreLists(items[0], children[0]);
      AllDictsAreLists(items[1..], children[1..]);
      assert PositionalAll(items, children)[1..] == PositionalAll(items[1..], children[1..]);
    }
  }

  // What comes out.

  /** No leaf of the attribute is given a dict, which would be read as a tagged value of any variant. */
  predicate NoTaggedLeaf(v: PyValue, da: DataAttribute)
    decreases da, 1
  {
    if !da.isArray && da.ty.Basic? then !v.PyDict?
    else if !da.isArray && v.PyDict? then NoTaggedMember(v.entries, da.children)
    else Items(v).Some? ==> NoTaggedItem(Items(v).value, da.children)
  }

  predicate NoTaggedItem(items: seq<PyValue>, children: seq<DataAttribute>)
    decreases children, 0
  {
    items != [] && children != [] ==> NoTaggedLeaf(items[0], children[0]) && NoTaggedItem(items[1..], children[1..])
  }

  predicate NoTaggedMember(d: map<PyKey, PyValue>, children: seq<DataAttribute>)
    decreases children, 0
  {
    children != [] ==>
      && (Name(children[0].name) in d ==> NoTaggedLeaf(d[Name(children[0].name)], children[0]))
      && NoTaggedMember(d, children[1..])
  }

  /** Whatever else the input is, an accepted one has become a value of the attribute's shape. */
  lemma {:induction false} AcceptedConforms(v: PyValue, da: DataAttribute)
    requires NoTaggedLeaf(v, da) && Shaped(v, da).Ok?
    ensures Conforms(Shaped(v, da).value, da)
    decreases da, 1
  {
    if !da.isArray && da.ty.Basic? {
      LeafConforms(v, da.held);
    } else if !da.isArray && v.PyDict? {
      MembersConform(v.entries, da.children);
    } else {
      ItemsConform(Items(v).value, da.children);
    }
  }

  lemma LeafConforms(v: PyValue, held: MmsValue)
    requires Leaf(v, held).Some?
    ensures SameVariant(Leaf(v, held).value, held)
  {
    if held.BitString? {
      FromBitFieldsCanonical(v.items[1], v.items[0]);
    }
  }

  lemma {:induction false} ItemsConform(items: seq<PyValue>, children: seq<DataAttribute>)
    requires |items| == |children| && NoTaggedItem(items, children) && ShapedAll(items, children).Ok?
    ensures AllConform(ShapedAll(items, children).value, children)
    decreases children, 0
  {
    if items != [] {
      AcceptedConforms(items[0], children[0]);
      ItemsConform(items[1..], children[1..]);
      assert ShapedAll(items, children).value[1..] == ShapedAll(items[1..], children[1..]).value;
    }
  }

  lemma {:induction false} MembersConform(d: map<PyKey, PyValue>, children: seq<DataAttribute>)
    requires NoTaggedMember(d, children) && ShapedByName(d, children).Ok?
    ensures AllConform(ShapedByName(d, children).value, children)
    decreases children, 0
  {
    if children != [] {
      AcceptedConforms(d[Name(children[0].name)], children[0]);
      MembersConform(d, children[1..]);
      assert ShapedByName(d, children).value[1..] == ShapedByName(d, children[1..]).value;
    }
  }

  /** The zero values of the tree hold canonical bit strings. */
  predicate ZerosCanonical(da: DataAttribute) {
    && (da.ty.Basic? ==> BitStringsCanonical(da.ty.zero))
    && AllZerosCanonical(da.children)
  }

  predicate AllZerosCanonical(children: seq<DataAttribute>) {
    children == [] || (ZerosCanonical(children[0]) && AllZerosCanonical(children[1..]))
  }

  /** Whatever the input, tagged or not, every bit string that comes out at any depth is canonical. */
  lemma {:induction false} ShapedBitStrings(v: PyValue, da: DataAttribute)
    requires ZerosCanonical(da) && Shaped(v, da).Ok?
    ensures BitStringsCanonical(Shaped(v, da).value)
    decreases da, 1
  {
    if !da.isArray && da.ty.Basic? {
      if v.PyDict? {
        TaggedBitStrings(v, da.ty.zero);
      } else if da.held.BitString? {
        FromBitFieldsCanonical(v.items[1], v.items[0]);
      }
    } else if !da.isArray && v.PyDict? {
      ByNameBitStrings(v.entries, da.children);
    } else {
      AllShapedBitStrings(Items(v).value, da.children);
    }
  }

  lemma {:induction false} AllShapedBitStrings(items: seq<PyValue>, children: seq<DataAttribute>)
    requires |items| == |children| && AllZerosCanonical(children) && ShapedAll(items, children).Ok?
    ensures AllBitStringsCanonical(ShapedAll(items, children).value)
    decreases children, 0
  {
    if items != [] {
      ShapedBitStrings(items[0], children[0]);
      AllShapedBitStrings(items[1..], children[1..]);
      assert ShapedAll(items, children).value[1..] == ShapedAll(items[1..], children[1..]).value;
    }
  }

  lemma {:induction false} ByNameBitStrings(d: map<PyKey, PyValue>, children: seq<DataAttribute>)
    requires AllZerosCanonical(children) && ShapedByName(d, children).Ok?
    ensures AllBitStringsCanonical(ShapedByName(d, children).value)
    decreases children, 0
  {
    if children != [] {
      ShapedBitStrings(d[Name(children[0].name)], children[0]);
      ByNameBitStrings(d, children[1..]);
      assert ShapedByName(d, children).value[1..] == ShapedByName(d, children[1..]).value;
    }
  }

  lemma TaggedBitStrings(v: PyValue, zero: MmsValue)
    requires v.PyDict? && Tagged(v, Some(zero)).Ok? && BitStringsCanonical(zero)
    ensures BitStringsCanonical(Tagged(v, Some(zero)).value)
  {
    if KindOfDict(v.entries) != Some(DefaultKind) {
      assert Tagged(v, Some(zero)) == Tagged(v, None);
      TaggedProducible(v);
      ProducibleBitStrings(Tagged(v, None).value);
    }
  }

  lemma {:induction false} ProducibleBitStrings(v: MmsValue)
    requires Producible(v)
    ensures BitStringsCanonical(v)
    decreases v, 1
  {
    if v.Array? || v.Structure? {
      AllProducibleBitStrings(v.items);
    }
  }

  lemma {:induction false} AllProducibleBitStrings(vs: seq<MmsValue>)
    requires AllProducible(vs)
    ensures AllBitStringsCanonical(vs)
    decreases vs, 0
  {
    if vs != [] {
      ProducibleBitStrings(vs[0]);
      AllProducibleBitStrings(vs[1..]);
    }
  }
}

/** Object references of data set members: the Python composer, the native decomposer, and how far one
    undoes the other. */
module References {
  import opened Common
  import opened Text

  // Decimal numerals.

  const DIGITS: string := "0123456789"

  predicate AllDigits(s: string) {
    forall i :: 0 <= i < |s| ==> '0' <= s[i] <= '9'
  }

  function Decimal(n: nat): (s: string)
    ensures s != [] && AllDigits(s)
  {
    if n < 10 then [DIGITS[n]] else Decimal(n / 10) + [DIGITS[n % 10]]
  }

  function DigitsValue(s: string): nat
    requires AllDigits(s)
  {
    if s == [] then 0
    else DigitsValue(s[..|s| - 1]) * 10 + (s[|s| - 1] as int - '0' as int)
  }

  /** Rust's `str::parse::<u32>`: an optional `+`, then at least one digit, and no overflow. */
  function ParseU32(s: string): Option<nat> {
    var digits := if s != [] && s[0] == '+' then s[1..] else s;
    if digits != [] && AllDigits(digits) && DigitsValue(digits) <= U32_MAX
    then Some(DigitsValue(digits))
    else None
  }

  lemma {:induction false} DecimalValue(n: nat)
    ensures DigitsValue(Decimal(n)) == n
  {
    if n >= 10 {
      DecimalValue(n / 10);
      var s := Decimal(n);
      assert s[..|s| - 1] == Decimal(n / 10);
    }
  }

  lemma ParseDecimal(n: nat)
    ensures ParseU32(Decimal(n)) == if n <= U32_MAX then Some(n) else None
  {
    DecimalValue(n);
  }

  // Composing and decomposing.

  /** A member selection: a base reference, an array index, a component of that element. */
  datatype Selection = Selection(base: string, index: Option<int>, component: Option<string>)

  /** `_compose_reference`. */
  function Compose(s: Selection): Result<string> {
    match s.index
    case None => if s.component.Some? then Raised(ValueError) else Ok(s.base)
    case Some(i) =>
      if i < 0 then Raised(ValueError)
      else
        var target := s.base + "(" + Decimal(i) + ")";
        Ok(if s.component.Some? then target + "." + s.component.value else target)
  }

  function Whole(reference: string): Selection { Selection(reference, None, None) }

  /** `decompose_reference`: at the first `(` and the first `)` after it. */
  function Decompose(reference: string): Selection {
    match SplitOnce(reference, '(')
    case None => Whole(reference)
    case Some((base, afterOpen)) =>
      match SplitOnce(afterOpen, ')')
      case None => Whole(reference)
      case Some((numeral, rest)) =>
        match ParseU32(numeral)
        case None => Whole(reference)
        case Some(i) =>
          if rest == "" then Selection(base, Some(i), None)
          else if rest[0] == '.' && |rest| > 1 then Selection(base, Some(i), Some(rest[1..]))
          else Whole(reference)
  }

  /** A reference that reads as `<base>(<decimal>)[.<component>]`. */
  predicate CarriesIndex(reference: string) {
    match SplitOnce(reference, '(')
    case None => false
    case Some((_, afterOpen)) =>
      match SplitOnce(afterOpen, ')')
      case None => false
      case Some((numeral, rest)) =>
        ParseU32(numeral).Some? && (rest == "" || (rest[0] == '.' && |rest| > 1))
  }

  /** What a selection must be for its parts to come back. */
  predicate Recoverable(s: Selection) {
    match s.index
    case None => !CarriesIndex(s.base)
    case Some(i) => i <= U32_MAX && '(' !in s.base && s.component != Some("")
  }

  function Suffix(component: Option<string>): string {
    if component.Some? then "." + component.value else ""
  }

  /** Decomposing what was composed from a base without `(`. */
  lemma DecomposePlain(base: string, i: nat, component: Option<string>)
    requires '(' !in base
    ensures Compose(Selection(base, Some(i), component)).Ok?
    ensures Decompose(Compose(Selection(base, Some(i), component)).value) ==
            if i <= U32_MAX && component != Some("") then Selection(base, Some(i), component)
            else Whole(Compose(Selection(base, Some(i), component)).value)
  {
    var reference := Compose(Selection(base, Some(i), component)).value;
    var rest := Suffix(component);
    var afterOpen := Decimal(i) + ")" + rest;
    assert reference == base + "(" + afterOpen;
    SplitOnceUnique(base, '(', afterOpen);
    SplitOnceUnique(Decimal(i), ')', rest);
    ParseDecimal(i);
  }

  /** The base of a decomposed reference that carries an index has no `(`; a whole one is the reference. */
  lemma DecomposedBase(reference: string)
    ensures var s := Decompose(reference);
            && (s.index.None? <==> !CarriesIndex(reference))
            && (s.index.None? ==> s == Whole(reference))
            && (s.index.Some? ==> '(' !in s.base && 0 <= s.index.value <= U32_MAX && s.component != Some(""))
  {
  }

  /** For every selection that composes: its parts come back exactly when it is recoverable. */
  lemma ReferenceRoundTrip(s: Selection)
    requires Compose(s).Ok?
    ensures Decompose(Compose(s).value) == s <==> Recoverable(s)
  {
    match s.index
    case None => DecomposedBase(s.base);
    case Some(i) =>
      if '(' !in s.base {
        DecomposePlain(s.base, i, s.component);
      } else {
        DecomposedBase(Compose(s).value);
      }
  }

  /** The text between the first `(` and the first `)` after it. */
  function Numeral(reference: string): string {
    match SplitOnce(reference, '(')
    case None => ""
    case Some((_, afterOpen)) => match SplitOnce(afterOpen, ')') case None => "" case Some((numeral, _)) => numeral
  }

  lemma DecomposedParts(reference: string)
    requires Decompose(reference).index.Some?
    ensures var s := Decompose(reference);
            && '(' !in s.base && ')' !in Numeral(reference)
            && ParseU32(Numeral(reference)) == s.index
            && reference == s.base + "(" + (Numeral(reference) + (")" + Suffix(s.component)))
  {
    var (base, afterOpen) := SplitOnce(reference, '(').value;
    var (numeral, rest) := SplitOnce(afterOpen, ')').value;
    var s := Decompose(reference);
    assert s == Selection(base, ParseU32(numeral), if rest == "" then None else Some(rest[1..]));
    SuffixOf(rest);
    JoinAround(base, numeral, rest);
  }

  lemma JoinAround(base: string, numeral: string, rest: string)
    ensures base + ['('] + (numeral + [')'] + rest) == base + "(" + (numeral + (")" + rest))
  {
  }

  lemma SuffixOf(rest: string)
    requires rest == "" || (rest[0] == '.' && |rest| > 1)
    ensures Suffix(if rest == "" then None else Some(rest[1..])) == rest
  {
    if rest != "" {
      assert rest == "." + rest[1..];
    }
  }

  /** Whenever decomposing reports an index, its parts put back together around the numeral are the
      reference, which is what the composer writes exactly when the numeral is the plain decimal. */
  lemma DecomposeRebuilds(reference: string)
    requires Decompose(reference).index.Some?
    ensures var s := Decompose(reference);
            && ParseU32(Numeral(reference)) == s.index
            && reference == s.base + "(" + (Numeral(reference) + (")" + Suffix(s.component)))
            && (Compose(s) == Ok(reference) <==> Numeral(reference) == Decimal(s.index.value))
  {
    var s := Decompose(reference);
    DecomposedParts(reference);
    ComposedParts(s);
    if Compose(s) == Ok(reference) {
      CancelAround(s.base + "(", Decimal(s.index.value), Numeral(reference), ")" + Suffix(s.component));
    }
  }

  lemma CancelAround(before: string, a: string, b: string, after: string)
    requires before + (a + after) == before + (b + after)
    ensures a == b
  {
    var whole := before + (a + after);
    assert |a| == |b|;
    assert a == whole[|before|..|before| + |a|];
    assert b == (before + (b + after))[|before|..|before| + |b|];
  }

  lemma ComposedParts(s: Selection)
    requires s.index.Some? && s.index.value >= 0
    ensures Compose(s) == Ok(s.base + "(" + (Decimal(s.index.value) + (")" + Suffix(s.component))))
  {
    var target := s.base + "(" + Decimal(s.index.value) + ")";
    if s.component.Some? {
      assert target + "." + s.component.value == target + ("." + s.component.value);
    } else {
      assert target + "" == target;
    }
    assert target + Suffix(s.component) == s.base + "(" + (Decimal(s.index.value) + (")" + Suffix(s.component)));
  }

  /** Whatever reference is decomposed, composing its parts and decomposing again gives the same parts. */
  lemma DecomposeComposeStable(reference: string)
    ensures Compose(Decompose(reference)).Ok?
    ensures Decompose(Compose(Decompose(reference)).value) == Decompose(reference)
  {
    DecomposedBase(reference);
    ReferenceRoundTrip(Decompose(reference));
  }

  // Member lists.

  /** A member as the caller names it, and as the server holds it. */
  datatype Member = Member(selection: Selection, fc: string)
  datatype NativeMember = NativeMember(reference: string, fc: string)

  function Prepend<T>(done: seq<T>, rest: Result<seq<T>>): Result<seq<T>> {
    match rest
    case Ok(r) => Ok(done + r)
    case Raised(e) => Raised(e)
  }

  lemma PrependOne<T>(done: seq<T>, x: T, rest: Result<seq<T>>)
    ensures Prepend(done, Prepend([x], rest)) == Prepend(done + [x], rest)
    ensures Prepend([], rest) == rest
  {
    if rest.Ok? {
      assert done + ([x] + rest.value) == done + [x] + rest.value;
      assert [] + rest.value == rest.value;
    }
  }

  function EncodeMembers(members: seq<Member>): Result<seq<NativeMember>> {
    if members == [] then Ok([])
    else
      var reference :- Compose(members[0].selection);
      Prepend([NativeMember(reference, members[0].fc)], EncodeMembers(members[1..]))
  }

  function Directory(held: seq<NativeMember>): (members: seq<Member>)
    ensures |members| == |held|
    ensures forall i :: 0 <= i < |held| ==> members[i] == Member(Decompose(held[i].reference), held[i].fc)
  {
    seq(|held|, i requires 0 <= i < |held| => Member(Decompose(held[i].reference), held[i].fc))
  }

  /** The list `create_data_set` sends; the first member that does not compose raises. */
  method CreateDataSet(members: seq<Member>) returns (encoded: Result<seq<NativeMember>>)
    ensures encoded == EncodeMembers(members)
  {
    var out: seq<NativeMember> := [];
    assert members[0..] == members;
    PrependOne(out, NativeMember("", ""), EncodeMembers(members));
    for i := 0 to |members|
      invariant EncodeMembers(members) == Prepend(out, EncodeMembers(members[i..]))
    {
      var reference := Compose(members[i].selection);
      assert members[i..][1..] == members[i + 1..];
      if reference.Raised? {
        return Raised(reference.error);
      }
      PrependOne(out, NativeMember(reference.value, members[i].fc), EncodeMembers(members[i + 1..]));
      out := out + [NativeMember(reference.value, members[i].fc)];
    }
    assert out + [] == out;
    encoded := Ok(out);
  }

  /** The member list `get_data_set_directory` returns. */
  method ReadDirectory(held: seq<NativeMember>) returns (members: seq<Member>)
    ensures members == Directory(held)
  {
    members := [];
    for i := 0 to |held|
      invariant members == Directory(held[..i])
    {
      members := members + [Member(Decompose(held[i].reference), held[i].fc)];
    }
    assert held[..|held|] == held;
  }

  /** The directory of any data set, fed back to create another one, reads back equal. */
  lemma {:induction false} CloneReadsBackEqual(held: seq<NativeMember>)
    ensures EncodeMembers(Directory(held)).Ok?
    ensures Directory(EncodeMembers(Directory(held)).value) == Directory(held)
  {
    if held != [] {
      DecomposeComposeStable(held[0].reference);
      assert Directory(held)[1..] == Directory(held[1..]);
      CloneReadsBackEqual(held[1..]);
    }
  }

  /** What a caller created reads back as it was written exactly when every member is recoverable. */
  lemma {:induction false} CreatedReadsBack(members: seq<Member>)
    requires EncodeMembers(members).Ok?
    ensures |EncodeMembers(members).value| == |members|
    ensures Directory(EncodeMembers(members).value) == members <==>
            forall i :: 0 <= i < |members| ==> Recoverable(members[i].selection)
  {
    if members != [] {
      ReferenceRoundTrip(members[0].selection);
      CreatedReadsBack(members[1..]);
      var encoded := EncodeMembers(members).value;
      assert encoded[1..] == EncodeMembers(members[1..]).value;
      var back := Directory(encoded);
      assert back[0] == members[0] <==> Recoverable(members[0].selection);
      assert back[1..] == Directory(encoded[1..]);
      assert back == members <==> back[0] == members[0] && back[1..] == members[1..];
      if forall i :: 0 <= i < |members| ==> Recoverable(members[i].selection) {
        assert forall i :: 0 <= i < |members[1..]| ==> Recoverable(members[1..][i].selection);
      }
      if back == members {
        forall i | 0 <= i < |members| ensures Recoverable(members[i].selection) {
          assert i > 0 ==> members[i] == members[1..][i - 1];
        }
      }
    }
  }

  /** A base whose parentheses hold no decimal comes back by itself, but not with any index. */
  lemma ParenthesisedBaseLost(base: string, i: nat)
    requires '(' in base && !CarriesIndex(base)
    ensures Decompose(Compose(Selection(base, None, None)).value) == Selection(base, None, None)
    ensures Decompose(Compose(Selection(base, Some(i), None)).value) != Selection(base, Some(i), None)
  {
    ReferenceRoundTrip(Selection(base, None, None));
    ReferenceRoundTrip(Selection(base, Some(i), None));
  }

  // The forms themselves.

  /** A selection composes exactly when its index is not negative, and a component comes with an index. */
  lemma ComposeAccepts(s: Selection)
    ensures Compose(s).Ok? <==> (s.index.Some? ==> s.index.value >= 0) && (s.component.Some? ==> s.index.Some?)
    ensures Compose(s).Raised? ==> Compose(s) == Raised(ValueError)
    ensures Compose(s).Ok? && s.index.None? ==> Compose(s).value == s.base
  {
  }

  /** Numerals have no leading zero. */
  lemma {:induction false} NoLeadingZero(n: nat)
    ensures |Decimal(n)| > 1 ==> Decimal(n)[0] != '0'
    ensures n > 0 ==> Decimal(n)[0] != '0'
  {
    if n >= 10 {
      NoLeadingZero(n / 10);
    }
  }

  /** A sign `+` is taken and makes no difference; any other character that is no digit is not. */
  lemma PlusIsTaken(s: string)
    ensures AllDigits(s) ==> ParseU32("+" + s) == ParseU32(s)
    ensures ParseU32(s).Some? ==> forall i :: 1 <= i < |s| ==> '0' <= s[i] <= '9'
    ensures ParseU32("").None?
  {
    assert ("+" + s)[1..] == s;
    if ParseU32(s).Some? && s[0] == '+' {
      assert forall i :: 1 <= i < |s| ==> s[i] == s[1..][i - 1];
    }
  }

  /** Exactly when an index is reported, and which parts: the base ends at the first `(`, the numeral at the first `)`
      after it, and what follows is nothing or a dot and a component. */
  lemma DecomposeExactly(reference: string, s: Selection, numeral: string)
    requires s.index.Some?
    ensures Decompose(reference) == s && Numeral(reference) == numeral <==>
            && '(' !in s.base && ')' !in numeral && ParseU32(numeral) == s.index && s.component != Some("")
            && reference == s.base + "(" + (numeral + (")" + Suffix(s.component)))
  {
    if Decompose(reference) == s && Numeral(reference) == numeral {
      DecomposedParts(reference);
    }
    if '(' !in s.base && ')' !in numeral && reference == s.base + "(" + (numeral + (")" + Suffix(s.component))) {
      SplitOnceUnique(s.base, '(', numeral + (")" + Suffix(s.component)));
      assert numeral + (")" + Suffix(s.component)) == numeral + ")" + Suffix(s.component);
      SplitOnceUnique(numeral, ')', Suffix(s.component));
    }
  }

  /** A member list is encoded exactly when every member composes, member by member and in order, with its constraint.
      */
  lemma {:induction false} EncodedExactly(members: seq<Member>)
    ensures EncodeMembers(members).Ok? <==> forall i :: 0 <= i < |members| ==> Compose(members[i].selection).Ok?
    ensures EncodeMembers(members).Ok? ==>
              && |EncodeMembers(members).value| == |members|
              && forall i :: 0 <= i < |members| ==>
                   EncodeMembers(members).value[i] == NativeMember(Compose(members[i].selection).value, members[i].fc)
    ensures EncodeMembers(members).Raised? ==> EncodeMembers(members) == Raised(ValueError)
  {
    if members != [] {
      EncodedExactly(members[1..]);
      assert forall i :: 1 <= i < |members| ==> members[i] == members[1..][i - 1];
      assert forall i :: 0 <= i < |members| - 1 ==> members[1..][i] == members[i + 1];
    }
  }
}

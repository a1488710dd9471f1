/** The string operations the path translations are made of: `find`, `split_once`, `split` and `join`. */
module Text {
  import opened Common

  /** Position of the first `c` in `s`. */
  function Find(s: string, c: char): (r: Option<nat>)
    ensures r.None? ==> c !in s
    ensures r.Some? ==> r.value < |s| && s[r.value] == c && c !in s[..r.value]
  {
    if s == [] then None
    else if s[0] == c then Some(0)
    else
      match Find(s[1..], c)
      case None => None
      case Some(i) => Some(i + 1)
  }

  /** The text before and after the first `c`. */
  function SplitOnce(s: string, c: char): (r: Option<(string, string)>)
    ensures r.None? <==> c !in s
    ensures r.Some? ==> s == r.value.0 + [c] + r.value.1 && c !in r.value.0
  {
    match Find(s, c)
    case None => None
    case Some(i) => Some((s[..i], s[i + 1..]))
  }

  /** The pieces of `s` between the occurrences of `c`; always at least one. */
  function Split(s: string, c: char): (parts: seq<string>)
    ensures parts != []
    ensures forall p <- parts :: c !in p
    ensures Join(parts, c) == s
    decreases |s|
  {
    match SplitOnce(s, c)
    case None => [s]
    case Some((head, rest)) => [head] + Split(rest, c)
  }

  function Join(parts: seq<string>, c: char): string {
    if parts == [] then ""
    else if |parts| == 1 then parts[0]
    else parts[0] + [c] + Join(parts[1..], c)
  }

  /** The first occurrence is the only place where a `c`-free head can end. */
  lemma SplitOnceUnique(head: string, c: char, rest: string)
    requires c !in head
    ensures SplitOnce(head + [c] + rest, c) == Some((head, rest))
  {
    var s := head + [c] + rest;
    assert s[|head|] == c;
    var (h, r) := SplitOnce(s, c).value;
    assert s == h + [c] + r;
    assert h == s[..|h|] && head == s[..|head|];
    assert r == s[|h| + 1..] && rest == s[|head| + 1..];
  }

  lemma SplitFree(s: string, c: char)
    requires c !in s
    ensures Split(s, c) == [s]
  {
  }

  lemma SplitCons(head: string, c: char, rest: string)
    requires c !in head
    ensures Split(head + [c] + rest, c) == [head] + Split(rest, c)
  {
    SplitOnceUnique(head, c, rest);
  }

  /** Splitting undoes joining when no piece holds the separator. */
  lemma {:induction false} SplitJoin(parts: seq<string>, c: char)
    requires parts != []
    requires forall p <- parts :: c !in p
    ensures Split(Join(parts, c), c) == parts
  {
    if |parts| == 1 {
      SplitFree(parts[0], c);
    } else {
      SplitJoin(parts[1..], c);
      SplitCons(parts[0], c, Join(parts[1..], c));
      assert parts == [parts[0]] + parts[1..];
    }
  }
}

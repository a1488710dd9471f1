/** Translations of user paths into the keys of the server's registries, and when they can be undone. */
module PathTranslation {
  import opened Common
  import opened Text
  import opened IedModel
  import opened PathIndex

  /** `"LD/LN.DO.DA[.sub]*"` to the handler key `"LN$FC$DO[$DA]*"`. */
  function CanonicalHandlerPath(index: Index, path: string): Result<string> {
    if path !in index then Raised(KeyError)
    else
      match SplitOnce(path, '/')
      case None => Raised(ValueError)
      case Some((_, rest)) =>
        var parts := Split(rest, '.');
        if |parts| == 1 then Raised(ValueError)
        else Ok(parts[0] + "$" + index[path].fc + "$" + Join(parts[1..], '$'))
  }

  /** The reference of a data set entry: the MMS domain and the handler key. Also returns the domain. */
  function DatasetEntryPath(model: Model, index: Index, path: string): Result<(string, string)> {
    var canonical :- CanonicalHandlerPath(index, path);
    match SplitOnce(path, '/')
    case None => Raised(ValueError)
    case Some((inst, _)) =>
      match DeviceNamed(model.lds, inst)
      case None => Raised(KeyError)
      case Some(ld) =>
        var domain := ld.DomainName(model.iedName);
        Ok((domain + "/" + canonical, domain))
  }

  /** The device instance of a path. */
  function DeviceOf(path: string): string
    requires '/' in path
  {
    SplitOnce(path, '/').value.0
  }

  /** The path of a handler key within the logical device `inst`: drop the FC, turn `$` into `.`. */
  function UserPath(inst: string, key: string): string {
    var parts := Split(key, '$');
    if |parts| < 2 then ""
    else inst + "/" + Join([parts[0]] + parts[2..], '.')
  }

  /** No name below a device, and no functional constraint, holds the `$` that separates key segments. */
  ghost predicate KeyNames(model: Model) {
    forall ld <- model.lds :: NamesFree(LnNodes(ld.lns), '$') && FcsFree(LnNodes(ld.lns))
  }

  ghost predicate FcsFree(nodes: seq<Node>) {
    forall i :: 0 <= i < |nodes| ==>
      FcsFree(nodes[i].children) && (nodes[i].attribute.Some? ==> '$' !in nodes[i].attribute.value.fc)
  }

  /** A name that a walk reaches an attribute by is the name of a node. */
  lemma {:induction false} WalkedNames(nodes: seq<Node>, segs: seq<string>)
    requires segs != [] && NamesFree(nodes, '$') && FcsFree(nodes) && Walk(nodes, segs).Some?
    ensures forall s <- segs :: '$' !in s
    ensures '$' !in Walk(nodes, segs).value.fc
  {
    var n := ChildNamed(nodes, segs[0]).value;
    var i :| 0 <= i < |nodes| && nodes[i] == n;
    if |segs| > 1 {
      WalkedNames(n.children, segs[1..]);
      assert segs == [segs[0]] + segs[1..];
    }
  }

  /** No walk of a logical device ends at a logical node, so an indexed path has at least two segments. */
  lemma {:induction false} LnHasNoAttribute(lns: seq<LogicalNode>, segs: seq<string>)
    requires |segs| == 1
    ensures Walk(LnNodes(lns), segs).None?
  {
    var found := ChildNamed(LnNodes(lns), segs[0]);
    if found.Some? {
      LnNodesPlain(lns);
    }
  }

  lemma {:induction false} LnNodesPlain(lns: seq<LogicalNode>)
    ensures forall n <- LnNodes(lns) :: n.attribute.None?
  {
    if lns != [] {
      LnNodesPlain(lns[..|lns| - 1]);
    }
  }

  /** What the lookup of an indexed path went through. */
  lemma IndexedPath(model: Model, path: string)
    requires WellNamed(model) && path in ModelIndex(model.lds)
    ensures '/' in path && DeviceNamed(model.lds, DeviceOf(path)).Some?
    ensures var (inst, rest) := SplitOnce(path, '/').value;
            var ld := DeviceNamed(model.lds, inst).value;
            && |Split(rest, '.')| > 1
            && Walk(LnNodes(ld.lns), Split(rest, '.')) == Some(ModelIndex(model.lds)[path])
  {
    PathIndexIsLookup(model, path);
    var (inst, rest) := SplitOnce(path, '/').value;
    var ld := DeviceNamed(model.lds, inst).value;
    if |Split(rest, '.')| == 1 {
      LnHasNoAttribute(ld.lns, Split(rest, '.'));
    }
  }

  /** A path has a handler key exactly when it names a data attribute; the segments of the key are the logical node, the
      functional constraint of the attribute, and the names below the node; and within its logical device the key leads
      back to the path. */
  lemma HandlerKeyLeadsBack(model: Model, path: string)
    requires WellNamed(model) && KeyNames(model)
    ensures CanonicalHandlerPath(ModelIndex(model.lds), path).Ok? <==> Lookup(model, path).Some?
    ensures CanonicalHandlerPath(ModelIndex(model.lds), path).Ok? ==>
            var key := CanonicalHandlerPath(ModelIndex(model.lds), path).value;
            && '/' in path && |PathSegments(path)| > 1
            && Split(key, '$') == [PathSegments(path)[0], Lookup(model, path).value.fc] + PathSegments(path)[1..]
            && UserPath(DeviceOf(path), key) == path
  {
    var index := ModelIndex(model.lds);
    PathIndexIsLookup(model, path);
    if path in index {
      IndexedPath(model, path);
      var (inst, rest) := SplitOnce(path, '/').value;
      var parts := Split(rest, '.');
      WalkedNames(LnNodes(DeviceNamed(model.lds, inst).value.lns), parts);
      KeySegments(parts, index[path].fc);
      assert [parts[0]] + parts[1..] == parts;
    }
  }

  /** The names of a path after its device: the logical node, then what is below it. */
  function PathSegments(path: string): seq<string>
    requires '/' in path
  {
    Split(SplitOnce(path, '/').value.1, '.')
  }

  lemma KeyRegroup(a: string, b: string, c: string)
    ensures a + "$" + b + "$" + c == a + "$" + (b + "$" + c)
  {
  }

  lemma KeySplit(first: string, fc: string, tail: string)
    requires '$' !in first && '$' !in fc
    ensures Split(first + "$" + fc + "$" + tail, '$') == [first] + ([fc] + Split(tail, '$'))
  {
    SplitCons(fc, '$', tail);
    SplitCons(first, '$', fc + "$" + tail);
    KeyRegroup(first, fc, tail);
  }

  /** The `$`-separated segments of a handler key. */
  lemma KeySegments(parts: seq<string>, fc: string)
    requires |parts| > 1 && '$' !in fc && forall p <- parts :: '$' !in p
    ensures Split(parts[0] + "$" + fc + "$" + Join(parts[1..], '$'), '$') == [parts[0], fc] + parts[1..]
  {
    SplitJoin(parts[1..], '$');
    KeySplit(parts[0], fc, Join(parts[1..], '$'));
  }

  /** Exactly when two paths share a handler key: they name the same path below their devices under the
      same functional constraint. So no two paths of one device do, and the devices are not told apart. */
  lemma HandlerKeyCollisions(model: Model, p: string, q: string)
    requires WellNamed(model) && KeyNames(model)
    requires p in ModelIndex(model.lds) && q in ModelIndex(model.lds)
    ensures '/' in p && '/' in q
    ensures CanonicalHandlerPath(ModelIndex(model.lds), p) == CanonicalHandlerPath(ModelIndex(model.lds), q) <==>
            && SplitOnce(p, '/').value.1 == SplitOnce(q, '/').value.1
            && ModelIndex(model.lds)[p].fc == ModelIndex(model.lds)[q].fc
    ensures DeviceOf(p) == DeviceOf(q) && p != q ==>
            CanonicalHandlerPath(ModelIndex(model.lds), p) != CanonicalHandlerPath(ModelIndex(model.lds), q)
  {
    var index := ModelIndex(model.lds);
    IndexedPath(model, p);
    IndexedPath(model, q);
    var ps, qs := Split(SplitOnce(p, '/').value.1, '.'), Split(SplitOnce(q, '/').value.1, '.');
    WalkedNames(LnNodes(DeviceNamed(model.lds, DeviceOf(p)).value.lns), ps);
    WalkedNames(LnNodes(DeviceNamed(model.lds, DeviceOf(q)).value.lns), qs);
    KeySegments(ps, index[p].fc);
    KeySegments(qs, index[q].fc);
    if CanonicalHandlerPath(index, p) == CanonicalHandlerPath(index, q) {
      assert [ps[0], index[p].fc] + ps[1..] == [qs[0], index[q].fc] + qs[1..];
      assert ps == [ps[0]] + ([ps[0], index[p].fc] + ps[1..])[2..];
      assert qs == [qs[0]] + ([qs[0], index[q].fc] + qs[1..])[2..];
    }
  }

  /** The MMS domains tell the logical devices apart and hold no `/`. */
  ghost predicate DomainsDistinct(model: Model) {
    && (forall a <- model.lds, b <- model.lds :: a.DomainName(model.iedName) == b.DomainName(model.iedName) ==> a == b)
    && (forall ld <- model.lds :: '/' !in ld.DomainName(model.iedName))
  }

  /** The domain of an indexed path. */
  lemma EntryOf(model: Model, path: string)
    requires WellNamed(model) && DomainsDistinct(model) && path in ModelIndex(model.lds)
    ensures '/' in path && DeviceNamed(model.lds, DeviceOf(path)).Some?
    ensures CanonicalHandlerPath(ModelIndex(model.lds), path).Ok?
    ensures var domain := DeviceNamed(model.lds, DeviceOf(path)).value.DomainName(model.iedName);
            var key := CanonicalHandlerPath(ModelIndex(model.lds), path).value;
            && DatasetEntryPath(model, ModelIndex(model.lds), path) == Ok((domain + "/" + key, domain))
            && SplitOnce(domain + "/" + key, '/') == Some((domain, key))
  {
    IndexedPath(model, path);
    var domain := DeviceNamed(model.lds, DeviceOf(path)).value.DomainName(model.iedName);
    SplitOnceUnique(domain, '/', CanonicalHandlerPath(ModelIndex(model.lds), path).value);
  }

  /** With distinct `/`-free domains a data set entry reference is the domain and the handler key of the path, and
      names one path of the whole model. */
  lemma DatasetEntryPathsDistinct(model: Model, p: string, q: string)
    requires WellNamed(model) && KeyNames(model)
    requires DomainsDistinct(model)
    ensures DatasetEntryPath(model, ModelIndex(model.lds), p).Ok? <==> p in ModelIndex(model.lds)
    ensures p in ModelIndex(model.lds) ==>
              && '/' in p && DeviceNamed(model.lds, DeviceOf(p)).Some?
              && var (entry, domain) := DatasetEntryPath(model, ModelIndex(model.lds), p).value;
                 && domain == DeviceNamed(model.lds, DeviceOf(p)).value.DomainName(model.iedName)
                 && SplitOnce(entry, '/') == Some((domain, CanonicalHandlerPath(ModelIndex(model.lds), p).value))
    ensures var entryP := DatasetEntryPath(model, ModelIndex(model.lds), p);
            var entryQ := DatasetEntryPath(model, ModelIndex(model.lds), q);
            entryP.Ok? && entryQ.Ok? && entryP.value.0 == entryQ.value.0 ==> p == q
  {
    var index := ModelIndex(model.lds);
    if p in index {
      EntryOf(model, p);
      HandlerKeyLeadsBack(model, p);
    }
    if p in index && q in index {
      EntryOf(model, q);
      HandlerKeyCollisions(model, p, q);
    }
  }

  // Control block paths.

  /** A resolved control block path. */
  datatype BlockPath = BlockPath(domain: string, lnName: string, name: string, mmsPath: string)

  /** `"<LD>/<LN>.<name>"` to the block of kind `fc` (`RP`, `BR` or `LG`) of that logical device. */
  function ResolveBlockPath(model: Model, path: string, fc: string): Result<BlockPath> {
    match SplitOnce(path, '/')
    case None => Raised(ValueError)
    case Some((inst, rest)) =>
      match SplitOnce(rest, '.')
      case None => Raised(ValueError)
      case Some((lnName, name)) =>
        if name == "" || '.' in name then Raised(ValueError)
        else
          match DeviceNamed(model.lds, inst)
          case None => Raised(KeyError)
          case Some(ld) =>
            var domain := ld.DomainName(model.iedName);
            Ok(BlockPath(domain, lnName, name, domain + "/" + lnName + "$" + fc + "$" + name))
  }

  /** The item half of a block's MMS path. */
  function ItemOf(mmsPath: string): string {
    match SplitOnce(mmsPath, '/')
    case None => mmsPath
    case Some((_, item)) => item
  }

  /** The registry key under which `register_log_control` has the block stored. */
  function StoredLogKey(model: Model, path: string): Result<(string, string)> {
    var block :- ResolveBlockPath(model, path, "LG");
    Ok((block.domain, ItemOf(block.mmsPath)))
  }

  /** The registry key that `set_log_ena` and `log_value` look up. */
  function LookedUpLogKey(model: Model, path: string): Result<(string, string)> {
    var block :- ResolveBlockPath(model, path, "LG");
    match SplitOnce(block.mmsPath, '/')
    case None => Raised(ValueError)
    case Some(key) => Ok(key)
  }

  lemma LogPathRegroup(domain: string, lnName: string, name: string)
    ensures domain + "/" + lnName + "$" + "LG" + "$" + name == domain + "/" + (lnName + "$LG$" + name)
    ensures '/' in domain + "/" + (lnName + "$LG$" + name)
  {
    var item := lnName + "$LG$" + name;
    assert (domain + "/" + item)[|domain|] == '/';
    assert lnName + "$" + "LG" + "$" + name == item;
  }

  lemma LogKeyOf(model: Model, path: string)
    requires ResolveBlockPath(model, path, "LG").Ok?
    ensures var block := ResolveBlockPath(model, path, "LG").value;
            && '/' in block.mmsPath
            && ('/' !in block.domain ==>
                  && StoredLogKey(model, path) == Ok((block.domain, block.lnName + "$LG$" + block.name))
                  && LookedUpLogKey(model, path) == StoredLogKey(model, path))
  {
    var block := ResolveBlockPath(model, path, "LG").value;
    LogPathRegroup(block.domain, block.lnName, block.name);
    if '/' !in block.domain {
      SplitOnceUnique(block.domain, '/', block.lnName + "$LG$" + block.name);
    }
  }

  /** A path resolves for all three functions alike, and the block it stores is the one it looks up exactly
      when its domain holds no `/`. */
  lemma LogKeysAgree(model: Model, path: string)
    ensures StoredLogKey(model, path).Ok? <==> LookedUpLogKey(model, path).Ok?
    ensures StoredLogKey(model, path).Raised? ==> LookedUpLogKey(model, path) == StoredLogKey(model, path)
    ensures StoredLogKey(model, path).Ok? ==>
            (LookedUpLogKey(model, path) == StoredLogKey(model, path) <==>
             '/' !in ResolveBlockPath(model, path, "LG").value.domain)
    ensures StoredLogKey(model, path).Ok? ==>
            var block, stored := ResolveBlockPath(model, path, "LG").value, StoredLogKey(model, path).value;
            var looked := LookedUpLogKey(model, path).value;
            && stored == (block.domain, looked.1)
            && '/' !in looked.0 && block.mmsPath == looked.0 + "/" + looked.1
            && ('/' !in block.domain ==> looked.1 == block.lnName + "$LG$" + block.name)
  {
    if ResolveBlockPath(model, path, "LG").Ok? {
      LogKeyOf(model, path);
    }
  }

  /** Whether `"$LG$"` can be read at `k` in `item` with a block name after it. */
  predicate MarkAt(item: string, k: nat) {
    k + 4 < |item| && item[k..k + 4] == "$LG$"
  }

  /** The path of the log control block whose item splits at `k`. */
  function PathAt(inst: string, item: string, k: nat): string
    requires MarkAt(item, k)
  {
    inst + "/" + item[..k] + "." + item[k + 4..]
  }

  lemma LogItemParts(lnName: string, name: string)
    requires name != ""
    ensures var item := lnName + "$LG$" + name;
            MarkAt(item, |lnName|) && item[..|lnName|] == lnName && item[|lnName| + 4..] == name
  {
    var item := lnName + "$LG$" + name;
    assert item[|lnName|..|lnName| + 4] == "$LG$";
  }

  lemma ItemReadsOnce(lnA: string, nameA: string, lnB: string, nameB: string)
    requires '$' !in lnA && '$' !in lnB
    requires lnA + "$LG$" + nameA == lnB + "$LG$" + nameB
    ensures lnA == lnB && nameA == nameB
  {
    SplitOnceUnique(lnA, '$', "LG$" + nameA);
    SplitOnceUnique(lnB, '$', "LG$" + nameB);
    assert lnA + "$LG$" + nameA == lnA + "$" + ("LG$" + nameA);
    assert lnB + "$LG$" + nameB == lnB + "$" + ("LG$" + nameB);
    assert nameA == ("LG$" + nameA)[3..] && nameB == ("LG$" + nameB)[3..];
  }

  /** With distinct `/`-free domains and `$`-free logical node names no two accepted paths share a key. */
  lemma LogKeysDistinct(model: Model, p: string, q: string)
    requires ResolveBlockPath(model, p, "LG").Ok? && ResolveBlockPath(model, q, "LG").Ok?
    requires DomainsDistinct(model)
    requires '$' !in ResolveBlockPath(model, p, "LG").value.lnName
    requires '$' !in ResolveBlockPath(model, q, "LG").value.lnName
    requires StoredLogKey(model, p) == StoredLogKey(model, q)
    ensures p == q
  {
    var bp, bq := ResolveBlockPath(model, p, "LG").value, ResolveBlockPath(model, q, "LG").value;
    LogKeyOf(model, p);
    LogKeyOf(model, q);
    ItemReadsOnce(bp.lnName, bp.name, bq.lnName, bq.name);
    ResolvedFrom(model, p);
    ResolvedFrom(model, q);
    SameDomainSameInst(model, DeviceOf(p), DeviceOf(q));
  }

  lemma ResolvedFrom(model: Model, path: string)
    requires ResolveBlockPath(model, path, "LG").Ok?
    ensures var block := ResolveBlockPath(model, path, "LG").value;
            && '/' in path && DeviceNamed(model.lds, DeviceOf(path)).Some?
            && block.domain == DeviceNamed(model.lds, DeviceOf(path)).value.DomainName(model.iedName)
            && path == DeviceOf(path) + "/" + (block.lnName + "." + block.name)
  {
  }

  /** The path is a device instance, a logical node and a name without dots, put together. */
  ghost predicate BlockShape(path: string, inst: string, lnName: string, name: string) {
    '/' !in inst && '.' !in lnName && '.' !in name && name != "" && path == inst + "/" + (lnName + "." + name)
  }

  /** Exactly when a control block path resolves, to what, and with which exception it does not: it is put together
      from an instance, a node and a name, and the instance is one of the model, whose domain begins the MMS path. */
  lemma BlockPathExactly(model: Model, path: string, fc: string)
    ensures ResolveBlockPath(model, path, fc) == Raised(ValueError) <==>
            forall inst, lnName, name :: !BlockShape(path, inst, lnName, name)
    ensures forall inst, lnName, name :: BlockShape(path, inst, lnName, name) ==>
              ResolveBlockPath(model, path, fc) ==
              match DeviceNamed(model.lds, inst)
              case None => Raised(KeyError)
              case Some(ld) =>
                Ok(BlockPath(ld.DomainName(model.iedName), lnName, name,
                             ld.DomainName(model.iedName) + "/" + lnName + "$" + fc + "$" + name))
  {
    forall inst, lnName, name | BlockShape(path, inst, lnName, name)
      ensures SplitOnce(path, '/') == Some((inst, lnName + "." + name)) &&
              SplitOnce(lnName + "." + name, '.') == Some((lnName, name))
    {
      SplitOnceUnique(inst, '/', lnName + "." + name);
      SplitOnceUnique(lnName, '.', name);
    }
    if ResolveBlockPath(model, path, fc) != Raised(ValueError) {
      var (inst, rest) := SplitOnce(path, '/').value;
      var (lnName, name) := SplitOnce(rest, '.').value;
      assert BlockShape(path, inst, lnName, name);
    }
  }

  lemma SameDomainSameInst(model: Model, a: string, b: string)
    requires DomainsDistinct(model) && DeviceNamed(model.lds, a).Some? && DeviceNamed(model.lds, b).Some?
    requires DeviceNamed(model.lds, a).value.DomainName(model.iedName) ==
             DeviceNamed(model.lds, b).value.DomainName(model.iedName)
    ensures a == b
  {
  }

  /** The item an accepted path stores its block under. */
  function LogItem(block: BlockPath): string {
    block.lnName + "$LG$" + block.name
  }

  /** Another path, of any logical device, whose block is stored under the same key. */
  ghost predicate SharesLogKey(model: Model, path: string, other: string) {
    other != path && StoredLogKey(model, other).Ok? && StoredLogKey(model, other) == StoredLogKey(model, path)
  }

  /** The item reads as a node, the mark and a name in a second way. */
  ghost predicate SecondMark(block: BlockPath) {
    exists k: nat :: k != |block.lnName| && MarkAt(LogItem(block), k)
  }

  ghost predicate HasTwin(model: Model, inst: string) {
    exists twin :: TwinDevice(model, inst, twin)
  }

  /** Another instance of the model with the same domain. */
  ghost predicate TwinDevice(model: Model, inst: string, twin: string) {
    && twin != inst && '/' !in twin && DeviceNamed(model.lds, twin).Some? && DeviceNamed(model.lds, inst).Some?
    && DeviceNamed(model.lds, twin).value.DomainName(model.iedName) ==
       DeviceNamed(model.lds, inst).value.DomainName(model.iedName)
  }

  /** A path put together from its parts resolves to them. */
  lemma ResolveParts(model: Model, inst: string, lnName: string, name: string, fc: string)
    requires '/' !in inst && '.' !in lnName && name != "" && '.' !in name && DeviceNamed(model.lds, inst).Some?
    ensures var path := inst + "/" + lnName + "." + name;
            var domain := DeviceNamed(model.lds, inst).value.DomainName(model.iedName);
            && '/' in path && DeviceOf(path) == inst
            && ResolveBlockPath(model, path, fc) ==
               Ok(BlockPath(domain, lnName, name, domain + "/" + lnName + "$" + fc + "$" + name))
  {
    var rest := lnName + "." + name;
    assert inst + "/" + lnName + "." + name == inst + "/" + rest;
    SplitOnceUnique(inst, '/', rest);
    SplitOnceUnique(lnName, '.', name);
  }

  lemma SecondMarkShares(model: Model, path: string, block: BlockPath, k: nat)
    requires ResolveBlockPath(model, path, "LG") == Ok(block) && '/' !in block.domain
    requires k != |block.lnName| && MarkAt(LogItem(block), k)
    ensures '/' in path && SharesLogKey(model, path, PathAt(DeviceOf(path), LogItem(block), k))
  {
    var item := LogItem(block);
    var lnName, name := item[..k], item[k + 4..];
    ItemRejoined(item, k);
    assert '.' !in lnName && '.' !in name by {
      ItemFree(block);
    }
    ResolvedFrom(model, path);
    ResolveParts(model, DeviceOf(path), lnName, name, "LG");
    var q := PathAt(DeviceOf(path), item, k);
    assert q == DeviceOf(path) + "/" + lnName + "." + name;
    LogKeyOf(model, path);
    LogKeyOf(model, q);
  }

  lemma ItemRejoined(item: string, k: nat)
    requires MarkAt(item, k)
    ensures item == item[..k] + "$LG$" + item[k + 4..]
  {
    assert item == item[..k] + item[k..k + 4] + item[k + 4..];
  }

  lemma ItemFree(block: BlockPath)
    requires '.' !in block.lnName && '.' !in block.name
    ensures '.' !in LogItem(block)
  {
  }

  lemma SharedHasSecondMark(model: Model, path: string, block: BlockPath, other: string)
    requires ResolveBlockPath(model, path, "LG") == Ok(block) && '/' !in block.domain
    requires SharesLogKey(model, path, other)
    ensures '/' in path
    ensures SecondMark(block) || HasTwin(model, DeviceOf(path))
  {
    var second := ResolveBlockPath(model, other, "LG").value;
    LogKeyOf(model, path);
    ResolvedFrom(model, path);
    ResolvedFrom(model, other);
    SameStoredKey(model, path, other);
    LogItemParts(second.lnName, second.name);
    LogItemParts(block.lnName, block.name);
    assert MarkAt(LogItem(block), |second.lnName|);
    if DeviceOf(other) != DeviceOf(path) {
      assert TwinDevice(model, DeviceOf(path), DeviceOf(other));
    }
  }

  lemma SameStoredKey(model: Model, path: string, other: string)
    requires ResolveBlockPath(model, path, "LG").Ok? && '/' !in ResolveBlockPath(model, path, "LG").value.domain
    requires ResolveBlockPath(model, other, "LG").Ok? && StoredLogKey(model, other) == StoredLogKey(model, path)
    ensures ResolveBlockPath(model, other, "LG").value.domain == ResolveBlockPath(model, path, "LG").value.domain
    ensures LogItem(ResolveBlockPath(model, other, "LG").value) == LogItem(ResolveBlockPath(model, path, "LG").value)
  {
    LogKeyOf(model, path);
    LogKeyOf(model, other);
  }

  lemma TwinShares(model: Model, path: string, block: BlockPath, twin: string) returns (other: string)
    requires ResolveBlockPath(model, path, "LG") == Ok(block) && '/' in path && '/' !in block.domain
    requires TwinDevice(model, DeviceOf(path), twin)
    ensures SharesLogKey(model, path, other)
  {
    other := twin + "/" + block.lnName + "." + block.name;
    ResolvedFrom(model, path);
    ResolveParts(model, twin, block.lnName, block.name, "LG");
    LogKeyOf(model, path);
    LogKeyOf(model, other);
  }

  lemma SecondMarkFound(model: Model, path: string, block: BlockPath)
    requires ResolveBlockPath(model, path, "LG") == Ok(block) && '/' !in block.domain && SecondMark(block)
    ensures exists other :: SharesLogKey(model, path, other)
  {
    var k: nat :| k != |block.lnName| && MarkAt(LogItem(block), k);
    SecondMarkShares(model, path, block, k);
  }

  lemma TwinFound(model: Model, path: string, block: BlockPath)
    requires ResolveBlockPath(model, path, "LG") == Ok(block) && '/' in path && '/' !in block.domain
    requires HasTwin(model, DeviceOf(path))
    ensures exists other :: SharesLogKey(model, path, other)
  {
    var twin :| TwinDevice(model, DeviceOf(path), twin);
    var other := TwinShares(model, path, block, twin);
  }

  lemma SlashInPath(model: Model, path: string)
    requires ResolveBlockPath(model, path, "LG").Ok?
    ensures '/' in path
  {
  }

  /** A path shares its log key with another exactly when its item holds a second mark `"$LG$"` with a name after it, or
      another logical device has the same domain. */
  lemma LogKeyShared(model: Model, path: string)
    requires ResolveBlockPath(model, path, "LG").Ok? && '/' !in ResolveBlockPath(model, path, "LG").value.domain
    ensures '/' in path
    ensures SecondMark(ResolveBlockPath(model, path, "LG").value) || HasTwin(model, DeviceOf(path)) <==>
            exists other :: SharesLogKey(model, path, other)
  {
    var block := ResolveBlockPath(model, path, "LG").value;
    SlashInPath(model, path);
    if SecondMark(block) {
      SecondMarkFound(model, path, block);
    } else if HasTwin(model, DeviceOf(path)) {
      TwinFound(model, path, block);
    } else if other :| SharesLogKey(model, path, other) {
      SharedHasSecondMark(model, path, block, other);
    }
  }
}

/** The flat index from user paths to data attributes, built by walking the model tree, and the proof
    that it answers exactly what walking the tree along a path answers. */
module PathIndex {
  import opened Common
  import opened Text
  import opened IedModel

  type Index = map<string, DataAttribute>

  // The reference: follow a path name by name.

  function ChildNamed(nodes: seq<Node>, name: string): (r: Option<Node>)
    ensures r.Some? ==> r.value in nodes && r.value.name == name
    ensures r.None? ==> forall n <- nodes :: n.name != name
  {
    if nodes == [] then None
    else if nodes[0].name == name then Some(nodes[0])
    else ChildNamed(nodes[1..], name)
  }

  /** The attribute at the node reached by following `segs`, if there is one. */
  function Walk(nodes: seq<Node>, segs: seq<string>): Option<DataAttribute>
    requires segs != []
  {
    match ChildNamed(nodes, segs[0])
    case None => None
    case Some(n) => if |segs| == 1 then n.attribute else Walk(n.children, segs[1..])
  }

  /** Follows `"<LD>/<LN>.<DO>[.<sub>]*"`. */
  function Lookup(model: Model, path: string): Option<DataAttribute> {
    match SplitOnce(path, '/')
    case None => None
    case Some((inst, rest)) =>
      match DeviceNamed(model.lds, inst)
      case None => None
      case Some(ld) => Walk(LnNodes(ld.lns), Split(rest, '.'))
  }

  // What the walks insert, later entries replacing earlier ones.

  function NodeIndex(nodes: seq<Node>, prefix: string): Index {
    if nodes == [] then map[]
    else NodeIndex(nodes[..|nodes| - 1], prefix) + OneIndex(nodes[|nodes| - 1], prefix)
  }

  function OneIndex(node: Node, prefix: string): Index {
    (if node.attribute.Some? then map[prefix + node.name := node.attribute.value] else map[]) +
    NodeIndex(node.children, prefix + node.name + ".")
  }

  function ModelIndex(lds: seq<LogicalDevice>): Index {
    if lds == [] then map[]
    else
      var last := lds[|lds| - 1];
      ModelIndex(lds[..|lds| - 1]) + NodeIndex(LnNodes(last.lns), last.inst + "/")
  }

  lemma IndexSnoc(nodes: seq<Node>, node: Node, prefix: string)
    ensures NodeIndex(nodes + [node], prefix) == NodeIndex(nodes, prefix) + OneIndex(node, prefix)
  {
    assert (nodes + [node])[..|nodes|] == nodes;
  }

  lemma MergeAssociative(a: Index, b: Index, c: Index)
    ensures (a + b) + c == a + (b + c)
  {
  }

  /** One more node below `prefix`: its own entry first, then those below it. */
  lemma VisitNode(before: Index, done: seq<Node>, node: Node, prefix: string, own: Index, entries: Index)
    requires own == if node.attribute.Some? then map[prefix + node.name := node.attribute.value] else map[]
    requires entries == ((before + NodeIndex(done, prefix)) + own) + NodeIndex(node.children, prefix + node.name + ".")
    ensures entries == before + NodeIndex(done + [node], prefix)
  {
    var d, below := NodeIndex(done, prefix), NodeIndex(node.children, prefix + node.name + ".");
    IndexSnoc(done, node, prefix);
    MergeAssociative(before + d, own, below);
    MergeAssociative(before, d, own + below);
  }

  lemma DaNodesSnoc(das: seq<DataAttribute>, i: nat)
    requires i < |das|
    ensures DaNodes(das[..i + 1]) == DaNodes(das[..i]) + [Node(das[i].name, Some(das[i]), DaNodes(das[i].children))]
  {
    assert das[..i + 1][..i] == das[..i];
  }

  /** One more attribute of a data object, and what is below it. */
  lemma VisitAttribute(before: Index, children: seq<DoChild>, i: nat, da: DataAttribute, base: string, entries: Index)
    requires i < |children| && children[i] == Da(da)
    requires entries == before + NodeIndex(DoNodes(children[..i]), base + ".") + map[base + "." + da.name := da] +
                        NodeIndex(DaNodes(da.children), base + "." + da.name + ".")
    ensures entries == before + NodeIndex(DoNodes(children[..i + 1]), base + ".")
  {
    assert children[..i + 1][..i] == children[..i];
    VisitNode(before, DoNodes(children[..i]), Node(da.name, Some(da), DaNodes(da.children)), base + ".",
              map[base + "." + da.name := da], entries);
  }

  /** One more sub-data object: no entry of its own. */
  lemma VisitSubObject(before: Index, children: seq<DoChild>, i: nat, sub: DataObject, base: string, entries: Index)
    requires i < |children| && children[i] == SubDo(sub)
    requires entries == before + NodeIndex(DoNodes(children[..i]), base + ".") +
                        NodeIndex(DoNodes(sub.children), base + "." + sub.name + ".")
    ensures entries == before + NodeIndex(DoNodes(children[..i + 1]), base + ".")
  {
    var reached := before + NodeIndex(DoNodes(children[..i]), base + ".");
    assert children[..i + 1][..i] == children[..i];
    assert reached + map[] == reached;
    VisitNode(before, DoNodes(children[..i]), Node(sub.name, None, DoNodes(sub.children)), base + ".", map[], entries);
  }

  /** The index under construction. */
  class IndexBuilder {
    var entries: Index

    constructor ()
      ensures entries == map[]
    {
      entries := map[];
    }

    method WalkDaChildren(children: seq<DataAttribute>, base: string)
      modifies this
      ensures entries == old(entries) + NodeIndex(DaNodes(children), base + ".")
      decreases children
    {
      for i := 0 to |children|
        invariant entries == old(entries) + NodeIndex(DaNodes(children[..i]), base + ".")
      {
        var da := children[i];
        var path := base + "." + da.name;
        entries := entries + map[path := da];
        WalkDaChildren(da.children, path);
        DaNodesSnoc(children, i);
        VisitNode(old(entries), DaNodes(children[..i]), Node(da.name, Some(da), DaNodes(da.children)), base + ".",
                  map[path := da], entries);
      }
      assert children[..|children|] == children;
    }

    method WalkDoChildren(children: seq<DoChild>, base: string)
      modifies this
      ensures entries == old(entries) + NodeIndex(DoNodes(children), base + ".")
      decreases children
    {
      for i := 0 to |children|
        invariant entries == old(entries) + NodeIndex(DoNodes(children[..i]), base + ".")
      {
        var child := children[i];
        if child.Da? {
          var path := base + "." + child.da.name;
          entries := entries + map[path := child.da];
          WalkDaChildren(child.da.children, path);
          VisitAttribute(old(entries), children, i, child.da, base, entries);
        } else {
          assert child.sub < child;
          WalkDoChildren(child.sub.children, base + "." + child.sub.name);
          VisitSubObject(old(entries), children, i, child.sub, base, entries);
        }
      }
      assert children[..|children|] == children;
    }

    method WalkObjects(dos: seq<DataObject>, base: string)
      modifies this
      ensures entries == old(entries) + NodeIndex(ObjectNodes(dos), base + ".")
    {
      for k := 0 to |dos|
        invariant entries == old(entries) + NodeIndex(ObjectNodes(dos[..k]), base + ".")
      {
        ghost var before := entries;
        WalkDoChildren(dos[k].children, base + "." + dos[k].name);
        assert before + map[] == before;
        assert dos[..k + 1][..k] == dos[..k];
        VisitNode(old(entries), ObjectNodes(dos[..k]), Node(dos[k].name, None, DoNodes(dos[k].children)),
                  base + ".", map[], entries);
      }
      assert dos[..|dos|] == dos;
    }

    method WalkLogicalNodes(lns: seq<LogicalNode>, ldInst: string)
      modifies this
      ensures entries == old(entries) + NodeIndex(LnNodes(lns), ldInst + "/")
    {
      for j := 0 to |lns|
        invariant entries == old(entries) + NodeIndex(LnNodes(lns[..j]), ldInst + "/")
      {
        ghost var before := entries;
        WalkObjects(lns[j].dos, ldInst + "/" + lns[j].fullName);
        assert before + map[] == before;
        assert lns[..j + 1][..j] == lns[..j];
        VisitNode(old(entries), LnNodes(lns[..j]), Node(lns[j].fullName, None, ObjectNodes(lns[j].dos)),
                  ldInst + "/", map[], entries);
      }
      assert lns[..|lns|] == lns;
    }
  }

  method BuildPathIndex(model: Model) returns (index: Index)
    ensures index == ModelIndex(model.lds)
  {
    var idx := new IndexBuilder();
    for i := 0 to |model.lds|
      invariant fresh(idx)
      invariant idx.entries == ModelIndex(model.lds[..i])
    {
      idx.WalkLogicalNodes(model.lds[i].lns, model.lds[i].inst);
      assert model.lds[..i + 1][..i] == model.lds[..i];
    }
    assert model.lds[..|model.lds|] == model.lds;
    index := idx.entries;
  }

  // The index answers what the reference answers.

  function Below(prefix: string, path: string): seq<string>
    requires prefix <= path
  {
    Split(path[|prefix|..], '.')
  }

  /** A path that goes on below the child `name`. */
  lemma PassesThrough(prefix: string, name: string, path: string)
    requires '.' !in name && prefix + name + "." <= path
    ensures prefix <= path && Below(prefix, path) == [name] + Below(prefix + name + ".", path)
  {
    var rest := path[|prefix + name + "."|..];
    assert path[|prefix|..] == name + "." + rest;
    SplitCons(name, '.', rest);
  }

  lemma GoesOn(prefix: string, name: string, path: string)
    requires prefix <= path && |Below(prefix, path)| > 1 && Below(prefix, path)[0] == name
    ensures prefix + name + "." <= path
  {
    var segs := Below(prefix, path);
    assert path == prefix + path[|prefix|..];
    assert path[|prefix|..] == name + "." + Join(segs[1..], '.');
  }

  /** A path that ends at the child `name`. */
  lemma EndsAt(prefix: string, name: string, path: string)
    requires '.' !in name
    ensures path == prefix + name <==> prefix <= path && Below(prefix, path) == [name]
  {
    if path == prefix + name {
      assert path[|prefix|..] == name;
      SplitFree(name, '.');
    } else if prefix <= path {
      assert path == prefix + path[|prefix|..];
    }
  }

  /** How a path continues below `prefix` decides whether it names, or passes through, the child `name`. */
  lemma FirstSegment(prefix: string, name: string, path: string)
    requires '.' !in name
    ensures path == prefix + name <==> prefix <= path && Below(prefix, path) == [name]
    ensures prefix + name + "." <= path <==>
            prefix <= path && |Below(prefix, path)| > 1 && Below(prefix, path)[0] == name
    ensures prefix + name + "." <= path ==> Below(prefix, path)[1..] == Below(prefix + name + ".", path)
  {
    EndsAt(prefix, name, path);
    if prefix + name + "." <= path {
      PassesThrough(prefix, name, path);
    }
    if prefix <= path && |Below(prefix, path)| > 1 && Below(prefix, path)[0] == name {
      GoesOn(prefix, name, path);
    }
  }

  lemma Apart(nodes: seq<Node>, node: Node)
    requires SiblingsDistinct(nodes + [node])
    ensures forall m <- nodes :: m.name != node.name
    ensures forall m <- nodes, n <- nodes :: m.name == n.name ==> m == n
  {
    var all := nodes + [node];
    assert all[|nodes|] == node && forall i :: 0 <= i < |nodes| ==> all[i] == nodes[i];
  }

  lemma WalkSnoc(nodes: seq<Node>, node: Node, segs: seq<string>)
    requires segs != [] && SiblingsDistinct(nodes + [node])
    ensures segs[0] != node.name ==> Walk(nodes + [node], segs) == Walk(nodes, segs)
    ensures segs[0] == node.name ==>
            && Walk(nodes, segs).None?
            && Walk(nodes + [node], segs) == if |segs| == 1 then node.attribute else Walk(node.children, segs[1..])
  {
    Apart(nodes, node);
    assert node in nodes + [node];
    assert forall m <- nodes :: m in nodes + [node];
    assert forall m <- nodes + [node] :: m in nodes || m == node;
  }

  lemma Shrink(nodes: seq<Node>, c: char)
    requires nodes != [] && SiblingsDistinct(nodes) && NamesFree(nodes, c)
    ensures var init, last := nodes[..|nodes| - 1], nodes[|nodes| - 1];
            && nodes == init + [last]
            && SiblingsDistinct(init) && NamesFree(init, c)
            && SiblingsDistinct(last.children) && NamesFree(last.children, c) && c !in last.name
  {
  }

  /** Below any prefix: indexed exactly when the walk reaches an attribute, and then that attribute. */
  lemma {:induction false} NodeIndexIsWalk(nodes: seq<Node>, prefix: string, path: string)
    requires SiblingsDistinct(nodes) && NamesFree(nodes, '.')
    ensures path in NodeIndex(nodes, prefix) <==> prefix <= path && Walk(nodes, Below(prefix, path)).Some?
    ensures path in NodeIndex(nodes, prefix) ==>
            NodeIndex(nodes, prefix)[path] == Walk(nodes, Below(prefix, path)).value
    decreases nodes
  {
    if nodes != [] {
      Shrink(nodes, '.');
      var init, last := nodes[..|nodes| - 1], nodes[|nodes| - 1];
      NodeIndexIsWalk(init, prefix, path);
      NodeIndexIsWalk(last.children, prefix + last.name + ".", path);
      FirstSegment(prefix, last.name, path);
      if prefix <= path {
        var segs := Below(prefix, path);
        WalkSnoc(init, last, segs);
      }
    }
  }

  lemma {:induction false} ModelIndexIsLookup(lds: seq<LogicalDevice>, path: string)
    requires DevicesDistinct(lds)
    requires forall ld <- lds :: '/' !in ld.inst && SiblingsDistinct(LnNodes(ld.lns)) && NamesFree(LnNodes(ld.lns), '.')
    ensures path in ModelIndex(lds) <==> Lookup(Model("", lds), path).Some?
    ensures path in ModelIndex(lds) ==> ModelIndex(lds)[path] == Lookup(Model("", lds), path).value
  {
    if lds != [] {
      var init, last := lds[..|lds| - 1], lds[|lds| - 1];
      assert lds == init + [last];
      ModelIndexIsLookup(init, path);
      NodeIndexIsWalk(LnNodes(last.lns), last.inst + "/", path);
      DeviceSnoc(init, last, path);
    }
  }

  lemma {:induction false} DeviceNamedSnoc(init: seq<LogicalDevice>, last: LogicalDevice, inst: string)
    requires forall ld <- init :: ld.inst != last.inst
    ensures DeviceNamed(init + [last], inst) == if inst == last.inst then Some(last) else DeviceNamed(init, inst)
    ensures inst == last.inst ==> DeviceNamed(init, inst) == None
  {
    if init == [] {
      assert [] + [last] == [last];
    } else {
      assert (init + [last])[1..] == init[1..] + [last] && init[0] in init;
      DeviceNamedSnoc(init[1..], last, inst);
    }
  }

  /** A path starts with a device instance exactly when that is what comes before its first `/`. */
  lemma DevicePrefix(inst: string, path: string)
    requires '/' !in inst
    ensures inst + "/" <= path <==> '/' in path && SplitOnce(path, '/').value.0 == inst
    ensures inst + "/" <= path ==> SplitOnce(path, '/') == Some((inst, path[|inst| + 1..]))
  {
    if inst + "/" <= path {
      SplitOnceUnique(inst, '/', path[|inst| + 1..]);
      assert path == inst + "/" + path[|inst| + 1..];
    }
  }

  lemma DeviceSnoc(init: seq<LogicalDevice>, last: LogicalDevice, path: string)
    requires DevicesDistinct(init + [last]) && '/' !in last.inst
    ensures Lookup(Model("", init + [last]), path) ==
            if last.inst + "/" <= path then Walk(LnNodes(last.lns), Below(last.inst + "/", path))
            else Lookup(Model("", init), path)
    ensures last.inst + "/" <= path ==> Lookup(Model("", init), path).None?
  {
    forall ld | ld in init ensures ld.inst != last.inst {
      var i :| 0 <= i < |init| && init[i] == ld;
      assert (init + [last])[i] == ld && (init + [last])[|init|] == last;
    }
    DevicePrefix(last.inst, path);
    if '/' in path {
      DeviceNamedSnoc(init, last, SplitOnce(path, '/').value.0);
    }
  }

  /** The index of a well-named model holds a path exactly when the path names a data attribute, leaf or
      constructed, and then it holds that attribute. */
  lemma PathIndexIsLookup(model: Model, path: string)
    requires WellNamed(model)
    ensures path in ModelIndex(model.lds) <==> Lookup(model, path).Some?
    ensures path in ModelIndex(model.lds) ==> ModelIndex(model.lds)[path] == Lookup(model, path).value
  {
    ModelIndexIsLookup(model.lds, path);
  }

  lemma DisjointMergeSize(a: Index, b: Index)
    requires a.Keys !! b.Keys
    ensures |a + b| == |a| + |b|
  {
    assert (a + b).Keys == a.Keys + b.Keys;
  }

  lemma {:induction false} NodeIndexSize(nodes: seq<Node>, prefix: string)
    requires SiblingsDistinct(nodes) && NamesFree(nodes, '.')
    ensures |NodeIndex(nodes, prefix)| == CountAttributes(nodes)
    decreases nodes
  {
    if nodes != [] {
      Shrink(nodes, '.');
      var init, last := nodes[..|nodes| - 1], nodes[|nodes| - 1];
      var inner := prefix + last.name + ".";
      NodeIndexSize(init, prefix);
      NodeIndexSize(last.children, inner);
      forall path | path in OneIndex(last, prefix)
        ensures path !in NodeIndex(init, prefix)
        ensures path in NodeIndex(last.children, inner) ==> path != prefix + last.name
      {
        FirstSegment(prefix, last.name, path);
        NodeIndexIsWalk(last.children, inner, path);
        NodeIndexIsWalk(init, prefix, path);
        WalkSnoc(init, last, Below(prefix, path));
      }
      var own: Index := if last.attribute.Some? then map[prefix + last.name := last.attribute.value] else map[];
      DisjointMergeSize(own, NodeIndex(last.children, inner));
      DisjointMergeSize(NodeIndex(init, prefix), OneIndex(last, prefix));
    }
  }

  /** Nothing is lost to a clash of paths: one entry per attribute of the tree. */
  lemma {:induction false} PathIndexSize(lds: seq<LogicalDevice>)
    requires DevicesDistinct(lds)
    requires forall ld <- lds :: '/' !in ld.inst && SiblingsDistinct(LnNodes(ld.lns)) && NamesFree(LnNodes(ld.lns), '.')
    ensures |ModelIndex(lds)| == CountModel(lds)
  {
    if lds != [] {
      var init, last := lds[..|lds| - 1], lds[|lds| - 1];
      assert lds == init + [last];
      PathIndexSize(init);
      NodeIndexSize(LnNodes(last.lns), last.inst + "/");
      forall path | path in NodeIndex(LnNodes(last.lns), last.inst + "/")
        ensures path !in ModelIndex(init)
      {
        NodeIndexIsWalk(LnNodes(last.lns), last.inst + "/", path);
        ModelIndexIsLookup(init, path);
        DeviceSnoc(init, last, path);
      }
      DisjointMergeSize(ModelIndex(init), NodeIndex(LnNodes(last.lns), last.inst + "/"));
    }
  }

  // The nodes are the model tree.

  lemma {:induction false} DaNodesMirror(das: seq<DataAttribute>, i: nat)
    requires i < |das|
    ensures DaNodes(das)[i] == Node(das[i].name, Some(das[i]), DaNodes(das[i].children))
  {
    if i < |das| - 1 {
      DaNodesMirror(das[..|das| - 1], i);
    }
  }

  lemma {:induction false} DoNodesMirror(children: seq<DoChild>, i: nat)
    requires i < |children|
    ensures children[i].Da? ==>
              DoNodes(children)[i] == Node(children[i].da.name, Some(children[i].da), DaNodes(children[i].da.children))
    ensures children[i].SubDo? ==>
              DoNodes(children)[i] == Node(children[i].sub.name, None, DoNodes(children[i].sub.children))
  {
    if i < |children| - 1 {
      DoNodesMirror(children[..|children| - 1], i);
    }
  }

  lemma {:induction false} ObjectNodesMirror(dos: seq<DataObject>, i: nat)
    requires i < |dos|
    ensures ObjectNodes(dos)[i] == Node(dos[i].name, None, DoNodes(dos[i].children))
  {
    if i < |dos| - 1 {
      ObjectNodesMirror(dos[..|dos| - 1], i);
    }
  }

  lemma {:induction false} LnNodesMirror(lns: seq<LogicalNode>, i: nat)
    requires i < |lns|
    ensures LnNodes(lns)[i] == Node(lns[i].fullName, None, ObjectNodes(lns[i].dos))
  {
    if i < |lns| - 1 {
      LnNodesMirror(lns[..|lns| - 1], i);
    }
  }
}

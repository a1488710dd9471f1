/** What a path names, told on the model tree itself: the entries of the path index are exactly the attributes that
    paths name. */
module PathNames {
  import opened Common
  import opened Text
  import opened IedModel
  import opened PathIndex

  /** The names lead from a list of attributes to `da`, down through constructed ones. */
  ghost predicate LeadsToDa(das: seq<DataAttribute>, segs: seq<string>, da: DataAttribute)
    decreases das
  {
    && segs != []
    && (exists i ::
          0 <= i < |das| && das[i].name == segs[0] &&
          (if |segs| == 1 then das[i] == da else LeadsToDa(das[i].children, segs[1..], da)))
  }

  /** The names lead from the children of a data object to `da`, down through sub-data objects and attributes. */
  ghost predicate LeadsTo(children: seq<DoChild>, segs: seq<string>, da: DataAttribute)
    decreases children
  {
    && segs != []
    && (exists i ::
          0 <= i < |children| &&
          if children[i].Da? then
            && children[i].da.name == segs[0]
            && (if |segs| == 1 then children[i].da == da else LeadsToDa(children[i].da.children, segs[1..], da))
          else
            assert children[i].sub < children[i];
            children[i].sub.name == segs[0] && LeadsTo(children[i].sub.children, segs[1..], da))
  }

  /** The names after the logical node lead to `da`: first that of a data object, then those below it. */
  ghost predicate NodeLeadsTo(ln: LogicalNode, segs: seq<string>, da: DataAttribute) {
    exists i ::
      0 <= i < |ln.dos| && |segs| > 1 && ln.dos[i].name == segs[0] && LeadsTo(ln.dos[i].children, segs[1..], da)
  }

  /** `"<LD>/<LN>.<DO>.<name>[.<name>]*"` names the attribute: the names, free of dots, lead to it in the tree. */
  ghost predicate PathNamesAttribute(model: Model, path: string, da: DataAttribute) {
    exists ld: LogicalDevice, ln: LogicalNode, segs: seq<string> ::
      && ld in model.lds && ln in ld.lns && segs != [] && (forall s <- segs :: '.' !in s)
      && path == ld.inst + "/" + (ln.fullName + "." + Join(segs, '.'))
      && NodeLeadsTo(ln, segs, da)
  }

  // The walk on nodes, told by positions.

  ghost predicate StepTo(n: Node, segs: seq<string>, da: DataAttribute)
    requires segs != []
  {
    n.name == segs[0] && (if |segs| == 1 then n.attribute == Some(da) else Walk(n.children, segs[1..]) == Some(da))
  }

  lemma {:induction false} WalkPicks(nodes: seq<Node>, segs: seq<string>, da: DataAttribute)
    requires segs != [] && SiblingsDistinct(nodes)
    ensures Walk(nodes, segs) == Some(da) <==> exists i :: 0 <= i < |nodes| && StepTo(nodes[i], segs, da)
  {
    if i :| 0 <= i < |nodes| && StepTo(nodes[i], segs, da) {
      ChildAt(nodes, i);
    }
    if Walk(nodes, segs) == Some(da) {
      var n := ChildNamed(nodes, segs[0]).value;
      var i :| 0 <= i < |nodes| && nodes[i] == n;
      assert StepTo(nodes[i], segs, da);
    }
  }

  lemma {:induction false} ChildAt(nodes: seq<Node>, i: nat)
    requires i < |nodes| && SiblingsDistinct(nodes)
    ensures ChildNamed(nodes, nodes[i].name) == Some(nodes[i])
  {
    var found := ChildNamed(nodes, nodes[i].name);
    assert nodes[i] in nodes;
    var j :| 0 <= j < |nodes| && nodes[j] == found.value;
    assert nodes[j].name == nodes[i].name;
  }

  lemma {:induction false} DaWalk(das: seq<DataAttribute>, segs: seq<string>, da: DataAttribute)
    requires segs != [] && SiblingsDistinct(DaNodes(das))
    ensures Walk(DaNodes(das), segs) == Some(da) <==> LeadsToDa(das, segs, da)
    decreases das
  {
    WalkPicks(DaNodes(das), segs, da);
    forall i | 0 <= i < |das|
      ensures StepTo(DaNodes(das)[i], segs, da) <==>
              das[i].name == segs[0] &&
              (if |segs| == 1 then das[i] == da else LeadsToDa(das[i].children, segs[1..], da))
    {
      DaNodesMirror(das, i);
      assert SiblingsDistinct(DaNodes(das)[i].children);
      if |segs| > 1 {
        DaWalk(das[i].children, segs[1..], da);
      }
    }
  }

  /** The `i`th child is the next step to `da`. */
  ghost predicate ChildLeads(child: DoChild, segs: seq<string>, da: DataAttribute)
    requires segs != []
  {
    match child
    case Da(own) =>
      own.name == segs[0] && (if |segs| == 1 then own == da else LeadsToDa(own.children, segs[1..], da))
    case SubDo(sub) => sub.name == segs[0] && LeadsTo(sub.children, segs[1..], da)
  }

  lemma {:induction false} LeadsByChild(children: seq<DoChild>, segs: seq<string>, da: DataAttribute)
    requires segs != []
    ensures LeadsTo(children, segs, da) <==> exists i :: 0 <= i < |children| && ChildLeads(children[i], segs, da)
  {
  }

  lemma {:induction false} DoWalk(children: seq<DoChild>, segs: seq<string>, da: DataAttribute)
    requires segs != [] && SiblingsDistinct(DoNodes(children))
    ensures Walk(DoNodes(children), segs) == Some(da) <==> LeadsTo(children, segs, da)
    decreases children
  {
    WalkPicks(DoNodes(children), segs, da);
    LeadsByChild(children, segs, da);
    forall i | 0 <= i < |children|
      ensures StepTo(DoNodes(children)[i], segs, da) <==> ChildLeads(children[i], segs, da)
    {
      DoNodesMirror(children, i);
      assert SiblingsDistinct(DoNodes(children)[i].children);
      if |segs| > 1 {
        if children[i].Da? {
          DaWalk(children[i].da.children, segs[1..], da);
        } else {
          assert children[i].sub < children[i];
          DoWalk(children[i].sub.children, segs[1..], da);
        }
      }
    }
  }

  lemma {:induction false} ObjectWalk(ln: LogicalNode, segs: seq<string>, da: DataAttribute)
    requires segs != [] && SiblingsDistinct(ObjectNodes(ln.dos))
    ensures Walk(ObjectNodes(ln.dos), segs) == Some(da) <==> NodeLeadsTo(ln, segs, da)
  {
    var nodes := ObjectNodes(ln.dos);
    WalkPicks(nodes, segs, da);
    forall i | 0 <= i < |ln.dos|
      ensures StepTo(nodes[i], segs, da) <==>
              |segs| > 1 && ln.dos[i].name == segs[0] && LeadsTo(ln.dos[i].children, segs[1..], da)
    {
      ObjectNodesMirror(ln.dos, i);
      assert SiblingsDistinct(nodes[i].children);
      if |segs| > 1 {
        DoWalk(ln.dos[i].children, segs[1..], da);
      }
    }
  }

  lemma {:induction false} LnWalk(lns: seq<LogicalNode>, segs: seq<string>, da: DataAttribute)
    requires segs != [] && SiblingsDistinct(LnNodes(lns))
    ensures Walk(LnNodes(lns), segs) == Some(da) <==>
            exists i :: 0 <= i < |lns| && |segs| > 1 && lns[i].fullName == segs[0] && NodeLeadsTo(lns[i], segs[1..], da)
  {
    var nodes := LnNodes(lns);
    WalkPicks(nodes, segs, da);
    forall i | 0 <= i < |lns|
      ensures StepTo(nodes[i], segs, da) <==>
              |segs| > 1 && lns[i].fullName == segs[0] && NodeLeadsTo(lns[i], segs[1..], da)
    {
      LnNodesMirror(lns, i);
      assert SiblingsDistinct(nodes[i].children);
      if |segs| > 1 {
        ObjectWalk(lns[i], segs[1..], da);
      }
    }
  }

  lemma {:induction false} DeviceFound(lds: seq<LogicalDevice>, ld: LogicalDevice)
    requires DevicesDistinct(lds) && ld in lds
    ensures DeviceNamed(lds, ld.inst) == Some(ld)
  {
    var i :| 0 <= i < |lds| && lds[i] == ld;
    var found := DeviceNamed(lds, ld.inst);
    var j :| 0 <= j < |lds| && lds[j] == found.value;
  }

  lemma {:induction false} NameFree(lns: seq<LogicalNode>, ln: LogicalNode)
    requires ln in lns && NamesFree(LnNodes(lns), '.')
    ensures '.' !in ln.fullName
  {
    var i :| 0 <= i < |lns| && lns[i] == ln;
    LnNodesMirror(lns, i);
    assert '.' !in LnNodes(lns)[i].name;
  }

  lemma {:induction false} NamedIsLooked(model: Model, path: string, da: DataAttribute)
    requires WellNamed(model) && PathNamesAttribute(model, path, da)
    ensures Lookup(model, path) == Some(da)
  {
    var ld: LogicalDevice, ln: LogicalNode, segs: seq<string> :|
      && ld in model.lds && ln in ld.lns && segs != [] && (forall s <- segs :: '.' !in s)
      && path == ld.inst + "/" + (ln.fullName + "." + Join(segs, '.'))
      && NodeLeadsTo(ln, segs, da);
    var rest := ln.fullName + "." + Join(segs, '.');
    SplitOnceUnique(ld.inst, '/', rest);
    DeviceFound(model.lds, ld);
    NameFree(ld.lns, ln);
    SplitCons(ln.fullName, '.', Join(segs, '.'));
    SplitJoin(segs, '.');
    var all := [ln.fullName] + segs;
    assert Split(rest, '.') == all && all[1..] == segs;
    var i :| 0 <= i < |ld.lns| && ld.lns[i] == ln;
    LnWalk(ld.lns, all, da);
    assert NodeLeadsTo(ld.lns[i], all[1..], da);
  }

  lemma {:induction false} LookedIsNamed(model: Model, path: string, da: DataAttribute)
    requires WellNamed(model) && Lookup(model, path) == Some(da)
    ensures PathNamesAttribute(model, path, da)
  {
    var (inst, rest) := SplitOnce(path, '/').value;
    var ld := DeviceNamed(model.lds, inst).value;
    var all := Split(rest, '.');
    LnWalk(ld.lns, all, da);
    var i :| 0 <= i < |ld.lns| && |all| > 1 && ld.lns[i].fullName == all[0] && NodeLeadsTo(ld.lns[i], all[1..], da);
    var segs := all[1..];
    assert rest == all[0] + "." + Join(segs, '.');
    assert forall s <- segs :: s in all;
    assert ld.lns[i] in ld.lns && path == ld.inst + "/" + (ld.lns[i].fullName + "." + Join(segs, '.'));
  }

  /** The index of a well-named model holds exactly the attributes that paths name in the tree. */
  lemma {:induction false} IndexHoldsNamed(model: Model, path: string, da: DataAttribute)
    requires WellNamed(model)
    ensures (path in ModelIndex(model.lds) && ModelIndex(model.lds)[path] == da) <==>
            PathNamesAttribute(model, path, da)
  {
    PathIndexIsLookup(model, path);
    if PathNamesAttribute(model, path, da) {
      NamedIsLooked(model, path, da);
    }
    if Lookup(model, path) == Some(da) {
      LookedIsNamed(model, path, da);
    }
  }
}

/** The model tree a hosted server is built on, and its view as a tree of named nodes. */
module IedModel {
  import opened Common
  import opened MmsValues

  /** `Basic` types are told apart by the zero value a `default` of that type resolves to. */
  datatype AttributeType = Constructed | Basic(zero: MmsValue)

  datatype DataAttribute = DataAttribute(
    name: string,
    fc: string,
    ty: AttributeType,
    isArray: bool,
    held: MmsValue,
    children: seq<DataAttribute>)

  datatype DoChild = Da(da: DataAttribute) | SubDo(sub: DataObject)

  datatype DataObject = DataObject(name: string, children: seq<DoChild>)

  datatype LogicalNode = LogicalNode(fullName: string, dos: seq<DataObject>)

  datatype LogicalDevice = LogicalDevice(inst: string, ldName: Option<string>, lns: seq<LogicalNode>) {
    /** The MMS domain: the functional name when there is one, the IED name and instance otherwise. */
    function DomainName(iedName: string): string {
      match ldName
      case Some(n) => n
      case None => iedName + inst
    }
  }

  datatype Model = Model(iedName: string, lds: seq<LogicalDevice>)

  /** The first logical device with instance `inst`, as a scan of the model finds it. */
  function DeviceNamed(lds: seq<LogicalDevice>, inst: string): (r: Option<LogicalDevice>)
    ensures r.Some? ==> r.value in lds && r.value.inst == inst
    ensures r.None? ==> forall ld <- lds :: ld.inst != inst
  {
    if lds == [] then None
    else if lds[0].inst == inst then Some(lds[0])
    else DeviceNamed(lds[1..], inst)
  }

  /** One named node below a logical device. Only data attributes carry an `attribute`. */
  datatype Node = Node(name: string, attribute: Option<DataAttribute>, children: seq<Node>)

  function DaNodes(das: seq<DataAttribute>): (nodes: seq<Node>)
    ensures |nodes| == |das|
  {
    if das == [] then []
    else
      var last := das[|das| - 1];
      DaNodes(das[..|das| - 1]) + [Node(last.name, Some(last), DaNodes(last.children))]
  }

  function DoNodes(children: seq<DoChild>): (nodes: seq<Node>)
    ensures |nodes| == |children|
  {
    if children == [] then []
    else
      var last := children[|children| - 1];
      DoNodes(children[..|children| - 1]) +
      [if last.Da? then Node(last.da.name, Some(last.da), DaNodes(last.da.children))
       else assert last.sub < last; Node(last.sub.name, None, DoNodes(last.sub.children))]
  }

  function ObjectNodes(dos: seq<DataObject>): (nodes: seq<Node>)
    ensures |nodes| == |dos|
  {
    if dos == [] then []
    else
      var last := dos[|dos| - 1];
      ObjectNodes(dos[..|dos| - 1]) + [Node(last.name, None, DoNodes(last.children))]
  }

  function LnNodes(lns: seq<LogicalNode>): (nodes: seq<Node>)
    ensures |nodes| == |lns|
  {
    if lns == [] then []
    else
      var last := lns[|lns| - 1];
      LnNodes(lns[..|lns| - 1]) + [Node(last.fullName, None, ObjectNodes(last.dos))]
  }

  /** Siblings carry distinct names at every level, and no name holds `c`. */
  ghost predicate NamesFree(nodes: seq<Node>, c: char) {
    && (forall i :: 0 <= i < |nodes| ==> c !in nodes[i].name && NamesFree(nodes[i].children, c))
  }

  ghost predicate SiblingsDistinct(nodes: seq<Node>) {
    && (forall i, j :: 0 <= i < j < |nodes| ==> nodes[i].name != nodes[j].name)
    && (forall i :: 0 <= i < |nodes| ==> SiblingsDistinct(nodes[i].children))
  }

  ghost predicate DevicesDistinct(lds: seq<LogicalDevice>) {
    forall i, j :: 0 <= i < j < |lds| ==> lds[i].inst != lds[j].inst
  }

  /** What makes the paths of a model unambiguous: distinct siblings, no `/` in a device instance,
      no `.` in any name below it. */
  ghost predicate WellNamed(model: Model) {
    && DevicesDistinct(model.lds)
    && (forall ld <- model.lds ::
          '/' !in ld.inst && SiblingsDistinct(LnNodes(ld.lns)) && NamesFree(LnNodes(ld.lns), '.'))
  }

  /** How many nodes of the forest carry an attribute. */
  function CountAttributes(nodes: seq<Node>): nat {
    if nodes == [] then 0
    else
      var last := nodes[|nodes| - 1];
      CountAttributes(nodes[..|nodes| - 1]) + (if last.attribute.Some? then 1 else 0) + CountAttributes(last.children)
  }

  function CountModel(lds: seq<LogicalDevice>): nat {
    if lds == [] then 0
    else CountModel(lds[..|lds| - 1]) + CountAttributes(LnNodes(lds[|lds| - 1].lns))
  }
}

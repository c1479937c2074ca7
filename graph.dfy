/**
 The host's graph description (the `prompt` argument of `MetaDataZaKo.run`):
 a mapping from node id to node record. The node only reads it.
 */
module Graph {
  import opened Wrappers

  type NodeId = string

  /** A value held by an input port: a link `[id, output_index]` (only the id is
      used), an empty list (indexing it raises), or any other literal. */
  datatype Value = Link(id: NodeId) | EmptyList | Literal(text: string)

  /** The input ports of a node, in the insertion order of the host's dict. */
  type Inputs = seq<(string, Value)>

  /** A graph entry: `None` in the host's dict, or a dict that may lack
      `class_type` and `inputs` and may carry other keys (such as `_meta`). */
  datatype NodeObj =
    | Null
    | Obj(classType: Option<string>, inputs: Option<Inputs>, extraKeys: bool)

  type Graph = map<NodeId, NodeObj>

  /** The node types the tracer accepts as the origin of an image. */
  const LoadImageTypes: set<string> := {"LoadImage", "LoadImageMask", "Load Image"}

  const RerouteType: string := "Reroute"

  /** `not node_obj`: None or an empty dict. */
  predicate IsFalsy(n: NodeObj) {
    n.Null? || (n.classType.None? && n.inputs.None? && !n.extraKeys)
  }

  /** `node_obj.get('class_type', 'Unknown')` */
  function ClassTypeOf(n: NodeObj): (t: string)
    requires n.Obj?
    ensures n.classType.None? ==> t == "Unknown"
    ensures t in LoadImageTypes || t == RerouteType ==> n.classType == Some(t)
  {
    match n.classType
    case Some(t) => t
    case None => "Unknown"
  }

  /** `node_obj.get('inputs', {})` */
  function InputsOf(n: NodeObj): Inputs
    requires n.Obj?
  {
    match n.inputs
    case Some(ins) => ins
    case None => []
  }

  /** `inputs.get(key)`: the value of the first port named `key`. */
  function Lookup(ins: Inputs, key: string): (r: Option<Value>)
    ensures r.None? <==> forall i :: 0 <= i < |ins| ==> ins[i].0 != key
    ensures r.Some? ==> exists i :: 0 <= i < |ins| && ins[i] == (key, r.value) &&
                                    forall j :: 0 <= j < i ==> ins[j].0 != key
  {
    if ins == [] then None
    else if ins[0].0 == key then Some(ins[0].1)
    else
      var r := Lookup(ins[1..], key);
      assert forall i :: 0 < i < |ins| ==> ins[i] == ins[1..][i - 1];
      r
  }
}

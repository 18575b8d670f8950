/**
  Values the graph driver hands back in a record, and their reshaping into
  the generic cells a query response carries.

  Nodes, relationships and paths are turned into fixed-key objects; every
  other value, including a node nested inside a list or map, passes through
  untouched.
 */
module Values {
  import opened Wrappers

  /** A driver value: scalars, containers, the three graph types, and an
      opaque tag for any other driver-native type (temporal, spatial, ...). */
  datatype Value =
    | Null
    | Bool(b: bool)
    | Int(i: int)
    | Str(s: string)
    | List(items: seq<Value>)
    | Dict(entries: map<string, Value>)
    | Node(node: NodeData)
    | Relationship(rel: RelData)
    | Path(path: PathData)
    | Opaque(kind: string)

  datatype NodeData = NodeData(elementId: string, labels: seq<string>, props: map<string, Value>)

  datatype RelData = RelData(
    elementId: string,
    relType: string,
    startElementId: string,
    endElementId: string,
    props: map<string, Value>)

  datatype PathData = PathData(nodes: seq<NodeData>, relationships: seq<RelData>)

  /** A response cell: a value passed through as is, or an object with string keys. */
  datatype Cell = Raw(v: Value) | Obj(fields: map<string, Cell>)

  /** The label list as a driver list of strings. */
  function StrList(xs: seq<string>): (v: Value)
    ensures v.List? && |v.items| == |xs|
    ensures forall i :: 0 <= i < |xs| ==> v.items[i] == Str(xs[i])
  {
    List(seq(|xs|, i requires 0 <= i < |xs| => Str(xs[i])))
  }

  function ShapeNode(n: NodeData): Cell {
    Obj(map["id" := Raw(Str(n.elementId)), "labels" := Raw(StrList(n.labels)), "properties" := Raw(Dict(n.props))])
  }

  function ShapeRel(r: RelData): Cell {
    Obj(map[
      "id" := Raw(Str(r.elementId)),
      "type" := Raw(Str(r.relType)),
      "start" := Raw(Str(r.startElementId)),
      "end" := Raw(Str(r.endElementId)),
      "properties" := Raw(Dict(r.props))])
  }

  function ShapePath(p: PathData): Cell {
    Obj(map["nodes" := Raw(Int(|p.nodes|)), "relationships" := Raw(Int(|p.relationships|))])
  }

  /** The per-value dispatch of a query result: the three graph types become
      fixed-key objects, and everything else is passed through unchanged. */
  function Reshape(v: Value): (c: Cell)
    ensures v.Node? ==> c.Obj? && c.fields.Keys == {"id", "labels", "properties"}
    ensures v.Relationship? ==> c.Obj? && c.fields.Keys == {"id", "type", "start", "end", "properties"}
    ensures v.Path? ==> c.Obj? && c.fields.Keys == {"nodes", "relationships"}
    ensures v.Path? ==>
      c.fields["nodes"] == Raw(Int(|v.path.nodes|)) && c.fields["relationships"] == Raw(Int(|v.path.relationships|))
    ensures !(v.Node? || v.Relationship? || v.Path?) <==> c == Raw(v)
  {
    match v
    case Node(n) => ShapeNode(n)
    case Relationship(r) => ShapeRel(r)
    case Path(p) => ShapePath(p)
    case _ => Raw(v)
  }

  /** Reads a driver list of strings back into a label list. */
  function ReadStrList(items: seq<Value>): Option<seq<string>>
    decreases |items|
  {
    if |items| == 0 then Some([])
    else if !items[0].Str? then None
    else match ReadStrList(items[1..])
      case None => None
      case Some(rest) => Some([items[0].s] + rest)
  }

  function ReadStr(fields: map<string, Cell>, key: string): Option<string> {
    if key in fields && fields[key].Raw? && fields[key].v.Str? then Some(fields[key].v.s) else None
  }

  function ReadProps(fields: map<string, Cell>): Option<map<string, Value>> {
    if "properties" in fields && fields["properties"].Raw? && fields["properties"].v.Dict?
    then Some(fields["properties"].v.entries) else None
  }

  /** Reads a reshaped node object back into node data. */
  function ReadNode(c: Cell): Option<NodeData> {
    if !c.Obj? then None
    else
      var f := c.fields;
      if ReadStr(f, "id").None? || ReadProps(f).None? then None
      else if !("labels" in f && f["labels"].Raw? && f["labels"].v.List?) then None
      else match ReadStrList(f["labels"].v.items)
        case None => None
        case Some(labels) => Some(NodeData(ReadStr(f, "id").value, labels, ReadProps(f).value))
  }

  /** Reads a reshaped relationship object back into relationship data. */
  function ReadRel(c: Cell): Option<RelData> {
    if !c.Obj? then None
    else
      var f := c.fields;
      if ReadStr(f, "id").None? || ReadStr(f, "type").None? || ReadStr(f, "start").None?
         || ReadStr(f, "end").None? || ReadProps(f).None? then None
      else Some(RelData(ReadStr(f, "id").value, ReadStr(f, "type").value, ReadStr(f, "start").value,
                        ReadStr(f, "end").value, ReadProps(f).value))
  }

  lemma {:induction false} StrListRoundTrip(xs: seq<string>)
    ensures ReadStrList(StrList(xs).items) == Some(xs)
    decreases |xs|
  {
    if |xs| > 0 {
      StrListRoundTrip(xs[1..]);
      assert StrList(xs).items[1..] == StrList(xs[1..]).items;
      assert [xs[0]] + xs[1..] == xs;
    }
  }

  /** Reshaping a node loses nothing: its id, labels and properties can be
      read back from the object. */
  lemma NodeRoundTrip(n: NodeData)
    ensures ReadNode(Reshape(Node(n))) == Some(n)
  {
    StrListRoundTrip(n.labels);
  }

  /** Reshaping a relationship loses nothing: id, type, both endpoint ids and
      properties can be read back from the object. */
  lemma RelRoundTrip(r: RelData)
    ensures ReadRel(Reshape(Relationship(r))) == Some(r)
  {
  }

  /** Reshaping a path keeps only its two lengths: two paths reshape to the
      same object exactly when they have as many nodes and as many
      relationships as each other. */
  lemma PathShapeIff(p: PathData, q: PathData)
    ensures Reshape(Path(p)) == Reshape(Path(q))
            <==> |p.nodes| == |q.nodes| && |p.relationships| == |q.relationships|
  {
    if Reshape(Path(p)) == Reshape(Path(q)) {
      assert Reshape(Path(p)).fields["nodes"] == Reshape(Path(q)).fields["nodes"];
      assert Reshape(Path(p)).fields["relationships"] == Reshape(Path(q)).fields["relationships"];
    }
  }
}

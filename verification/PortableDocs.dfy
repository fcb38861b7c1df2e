/** Portable documents: local ids for nodes and definitions, the JSON envelope, and reading it back. */
module PortableDocs {
  import opened Text
  import opened Json
  import opened Portable

  datatype PortableNode = PortableNode(
    localId: string,
    parentLocalId: Option<string>,
    kind: NodeKind,
    tag: Option<string>,
    defLocalId: Option<string>,
    enabled: bool,
    sortOrder: i64,
    meta: Json)

  datatype PortableDef = PortableDef(localId: string, defType: string, name: string, content: string, meta: Json)

  type Definitions = map<string, Definition>

  // ---- What an export holds ----

  /** A ref needs its definition; other nodes carry none. */
  predicate Exported(n: Node, defs: Definitions) {
    n.kind.Ref? ==> n.definition.Some? && n.definition.value in defs
  }

  function DefOf(n: Node, defs: Definitions): Option<Definition> {
    if n.kind.Ref? && n.definition.Some? && n.definition.value in defs then Some(defs[n.definition.value]) else None
  }

  /** The position of the first definition with this id, or the length. */
  function DefIndex(used: seq<Definition>, id: string): (k: nat)
    ensures k <= |used|
    ensures k < |used| ==> used[k].id == id
    ensures forall j :: 0 <= j < k ==> used[j].id != id
  {
    if used == [] || used[0].id == id then 0 else 1 + DefIndex(used[1..], id)
  }

  /** The definitions in the order in which refs first use them. */
  function Used(kept: seq<Node>, defs: Definitions): seq<Definition> {
    if kept == [] then []
    else
      var before := Used(kept[..|kept| - 1], defs);
      var d := DefOf(kept[|kept| - 1], defs);
      if d.Some? then Joined(before, d.value) else before
  }

  function NodeLid(k: nat): string {
    "n" + NatText(k)
  }

  function DefLid(k: nat): string {
    "d" + NatText(k)
  }

  /** The position of the node with this id, or the length. */
  function NodeIndex(kept: seq<Node>, id: string): (k: nat)
    ensures k <= |kept|
    ensures k < |kept| ==> kept[k].id == id
    ensures k == |kept| ==> forall j :: 0 <= j < |kept| ==> kept[j].id != id
  {
    if kept == [] then 0
    else if kept[|kept| - 1].id == id then |kept| - 1
    else
      var k := NodeIndex(kept[..|kept| - 1], id);
      if k == |kept| - 1 then |kept| else k
  }

  function ParentLid(kept: seq<Node>, parent: Option<string>): Option<string> {
    if parent.Some? && NodeIndex(kept, parent.value) < |kept| then Some(NodeLid(NodeIndex(kept, parent.value))) else None
  }

  function NodeOut(kept: seq<Node>, defs: Definitions, k: nat): PortableNode
    requires k < |kept|
  {
    var n := kept[k];
    var d := DefOf(n, defs);
    PortableNode(
      NodeLid(NodeIndex(kept, n.id)), ParentLid(kept, n.parent), n.kind, n.tag,
      if d.Some? then Some(DefLid(DefIndex(Used(kept, defs), d.value.id))) else None,
      n.enabled, n.sortOrder, n.meta)
  }

  /** The nodes that are exported, up to the k-th. */
  function NodesOut(kept: seq<Node>, defs: Definitions, k: nat): seq<PortableNode>
    requires k <= |kept|
  {
    if k == 0 then []
    else NodesOut(kept, defs, k - 1) + if Exported(kept[k - 1], defs) then [NodeOut(kept, defs, k - 1)] else []
  }

  function DefOut(d: Definition, k: nat): PortableDef {
    PortableDef(DefLid(k), d.defType, d.name, d.content, d.meta)
  }

  function DefsOut(used: seq<Definition>): (out: seq<PortableDef>)
    ensures |out| == |used| && forall k :: 0 <= k < |used| ==> out[k] == DefOut(used[k], k)
  {
    seq(|used|, k requires 0 <= k < |used| => DefOut(used[k], k))
  }

  // ---- JSON forms ----

  function OptStr(v: Option<string>): Json {
    if v.Some? then Str(v.value) else Null
  }

  function KindText(k: NodeKind): string {
    match k
    case Folder => "folder"
    case Ref => "ref"
    case History => "history"
    case Content => "content"
  }

  function KindOf(s: string): Option<NodeKind> {
    if s == "folder" then Some(Folder)
    else if s == "ref" then Some(Ref)
    else if s == "history" then Some(History)
    else if s == "content" then Some(Content)
    else None
  }

  lemma KindRoundTrip(k: NodeKind)
    ensures KindOf(KindText(k)) == Some(k)
  {
  }

  function NodeFields(n: PortableNode): seq<Field> {
    [
      Field("local_id", Str(n.localId)),
      Field("parent_local_id", OptStr(n.parentLocalId)),
      Field("kind", Str(KindText(n.kind))),
      Field("tag", OptStr(n.tag)),
      Field("def_local_id", OptStr(n.defLocalId)),
      Field("enabled", Bool(n.enabled)),
      Field("sort_order", FromInt(n.sortOrder)),
      Field("meta", n.meta)
    ]
  }

  function DefFields(d: PortableDef): seq<Field> {
    [
      Field("local_id", Str(d.localId)),
      Field("type", Str(d.defType)),
      Field("name", Str(d.name)),
      Field("content", Str(d.content)),
      Field("meta", d.meta)
    ]
  }

  function NodesJson(nodes: seq<PortableNode>): (out: seq<Json>)
    ensures |out| == |nodes| && forall k :: 0 <= k < |nodes| ==> out[k] == Obj(NodeFields(nodes[k]))
  {
    seq(|nodes|, k requires 0 <= k < |nodes| => Obj(NodeFields(nodes[k])))
  }

  function DefsJson(defs: seq<PortableDef>): (out: seq<Json>)
    ensures |out| == |defs| && forall k :: 0 <= k < |defs| ==> out[k] == Obj(DefFields(defs[k]))
  {
    seq(|defs|, k requires 0 <= k < |defs| => Obj(DefFields(defs[k])))
  }

  // ---- Exporting ----

  lemma {:induction false} UsedGrows(kept: seq<Node>, defs: Definitions, k: nat)
    requires k <= |kept|
    ensures Used(kept[..k], defs) <= Used(kept, defs)
    decreases |kept| - k
  {
    if k < |kept| {
      UsedGrows(kept, defs, k + 1);
      assert kept[..k + 1][..k] == kept[..k];
    } else {
      assert kept[..k] == kept;
    }
  }

  lemma {:induction false} DefIndexStays(a: seq<Definition>, b: seq<Definition>, id: string)
    requires a <= b && DefIndex(a, id) < |a|
    ensures DefIndex(b, id) == DefIndex(a, id)
  {
    var i, j := DefIndex(a, id), DefIndex(b, id);
    assert forall k :: 0 <= k < |a| ==> a[k] == b[k];
  }

  /** The map of local ids that these definitions have. */
  ghost predicate LidsOf(defLid: map<string, string>, used: seq<Definition>) {
    forall id ::
      && (id in defLid <==> DefIndex(used, id) < |used|)
      && (id in defLid ==> defLid[id] == DefLid(DefIndex(used, id)))
  }

  lemma LidsGrow(defLid: map<string, string>, used: seq<Definition>, d: Definition)
    requires LidsOf(defLid, used) && d.id !in defLid
    ensures LidsOf(defLid[d.id := DefLid(|used|)], used + [d])
  {
    hide DefLid;
    var more := used + [d];
    assert more[|used|] == d;
    forall id
      ensures DefIndex(more, id) ==
              if id == d.id then |used| else if DefIndex(used, id) < |used| then DefIndex(used, id) else |more|
    {
      var i := DefIndex(more, id);
      if DefIndex(used, id) < |used| {
        DefIndexStays(used, more, id);
      } else {
        assert forall j :: 0 <= j < |used| ==> more[j] == used[j];
      }
    }
  }

  lemma DefsSnoc(used: seq<Definition>, d: Definition)
    ensures DefsJson(DefsOut(used + [d])) == DefsJson(DefsOut(used)) + [Obj(DefFields(DefOut(d, |used|)))]
  {
    hide DefFields;
  }

  lemma NodesSnoc(nodes: seq<PortableNode>, n: PortableNode)
    ensures NodesJson(nodes + [n]) == NodesJson(nodes) + [Obj(NodeFields(n))]
  {
    hide NodeFields;
  }

  method NodeLids(kept: seq<Node>) returns (nodeLid: map<string, string>)
    ensures forall id ::
              && (id in nodeLid <==> NodeIndex(kept, id) < |kept|)
              && (id in nodeLid ==> nodeLid[id] == NodeLid(NodeIndex(kept, id)))
  {
    hide NodeLid;
    nodeLid := map[];
    for k := 0 to |kept|
      invariant forall id ::
                  && (id in nodeLid <==> NodeIndex(kept[..k], id) < k)
                  && (id in nodeLid ==> nodeLid[id] == NodeLid(NodeIndex(kept[..k], id)))
    {
      assert kept[..k + 1][..k] == kept[..k];
      nodeLid := nodeLid[kept[k].id := NodeLid(k)];
    }
    assert kept[..|kept|] == kept;
  }

  /** A definition joins the used ones unless one with its id is there. */
  function Joined(used: seq<Definition>, d: Definition): seq<Definition> {
    if DefIndex(used, d.id) == |used| then used + [d] else used
  }

  /** Takes a definition into the output once, and answers its local id. */
  method LidFor(d: Definition, outDefs: seq<Json>, defLid: map<string, string>, ghost used: seq<Definition>)
    returns (lid: string, moreDefs: seq<Json>, moreLids: map<string, string>)
    requires outDefs == DefsJson(DefsOut(used)) && LidsOf(defLid, used)
    ensures moreDefs == DefsJson(DefsOut(Joined(used, d))) && LidsOf(moreLids, Joined(used, d))
    ensures DefIndex(Joined(used, d), d.id) < |Joined(used, d)| && lid == DefLid(DefIndex(Joined(used, d), d.id))
  {
    hide DefLid, DefFields;
    moreDefs, moreLids := outDefs, defLid;
    if d.id !in defLid {
      var l := DefLid(|outDefs|);
      moreDefs := outDefs + [Obj(DefFields(PortableDef(l, d.defType, d.name, d.content, d.meta)))];
      moreLids := defLid[d.id := l];
      DefsSnoc(used, d);
      LidsGrow(defLid, used, d);
      assert d.id in moreLids;
    }
    lid := moreLids[d.id];
  }

  lemma UsedStep(kept: seq<Node>, defs: Definitions, k: nat)
    requires k < |kept|
    ensures var before := Used(kept[..k], defs);
            var d := DefOf(kept[k], defs);
            Used(kept[..k + 1], defs) == if d.Some? then Joined(before, d.value) else before
  {
    assert kept[..k + 1][..k] == kept[..k];
  }

  /** Fills the maps of local ids and the output lists, node by node; a ref without a definition is skipped. */
  method InlineSubtree(kept: seq<Node>, defs: Definitions) returns (outNodes: seq<Json>, outDefs: seq<Json>)
    ensures outNodes == NodesJson(NodesOut(kept, defs, |kept|))
    ensures outDefs == DefsJson(DefsOut(Used(kept, defs)))
  {
    hide NodeFields, DefFields, NodeLid, DefLid, DefIndex, LidsOf, Used, Joined, NodesJson, DefsJson, DefsOut, NodeIndex;
    var nodeLid := NodeLids(kept);
    var defLid: map<string, string> := map[];
    outNodes, outDefs := [], [];
    NothingUsed(kept, defs);
    for k := 0 to |kept|
      invariant outNodes == NodesJson(NodesOut(kept, defs, k))
      invariant outDefs == DefsJson(DefsOut(Used(kept[..k], defs)))
      invariant LidsOf(defLid, Used(kept[..k], defs))
    {
      var n := kept[k];
      var local: Option<string> := None;
      UsedStep(kept, defs, k);
      if n.kind.Ref? {
        if n.definition.None? || n.definition.value !in defs {
          continue;
        }
        var d := defs[n.definition.value];
        var lid;
        lid, outDefs, defLid := LidFor(d, outDefs, defLid, Used(kept[..k], defs));
        UsedGrows(kept, defs, k + 1);
        DefIndexStays(Used(kept[..k + 1], defs), Used(kept, defs), d.id);
        local := Some(lid);
      }
      var parent :=
        if n.parent.Some? && n.parent.value in nodeLid then Some(nodeLid[n.parent.value]) else None;
      KeptHasIndex(kept, k);
      var out := PortableNode(nodeLid[n.id], parent, n.kind, n.tag, local, n.enabled, n.sortOrder, n.meta);
      assert out == NodeOut(kept, defs, k);
      NodesSnoc(NodesOut(kept, defs, k), out);
      outNodes := outNodes + [Obj(NodeFields(out))];
    }
    assert kept[..|kept|] == kept;
  }

  lemma NothingUsed(kept: seq<Node>, defs: Definitions)
    ensures Used(kept[..0], defs) == [] && LidsOf(map[], [])
    ensures NodesJson([]) == [] && DefsJson(DefsOut([])) == []
  {
  }

  lemma KeptHasIndex(kept: seq<Node>, k: nat)
    requires k < |kept|
    ensures NodeIndex(kept, kept[k].id) < |kept|
  {
  }

  // ---- Envelopes ----

  datatype Identity = Identity(displayName: Option<string>, avatar: Option<string>)

  datatype Pack = Pack(name: string, identity: Identity, meta: Json)

  datatype Template = Template(name: string, meta: Json)

  /** A name that is absent is left out. */
  function IdentityFields(id: Identity): seq<Field> {
    (if id.displayName.Some? then [Field("display_name", Str(id.displayName.value))] else [])
    + (if id.avatar.Some? then [Field("avatar", Str(id.avatar.value))] else [])
  }

  function PackHead(pack: Pack): seq<Field> {
    [
      Field("name", Str(pack.name)),
      Field("identity", Obj(IdentityFields(pack.identity))),
      Field("meta", pack.meta)
    ]
  }

  function TemplateHead(t: Template): seq<Field> {
    [Field("name", Str(t.name)), Field("meta", t.meta)]
  }

  function Envelope(format: string, headKey: string, head: seq<Field>, nodes: seq<Json>, defs: seq<Json>): Json {
    Obj([
      Field("format", Str(format)),
      Field("version", FromNat(1)),
      Field(headKey, Obj(head)),
      Field("nodes", Arr(nodes)),
      Field("definitions", Arr(defs))
    ])
  }

  const PACK := "shirita.pack"
  const TEMPLATE := "shirita.template"
  const DEFINITION := "shirita.definition"

  function PackJson(pack: Pack, nodes: seq<PortableNode>, defs: seq<PortableDef>): Json {
    Envelope(PACK, "pack", PackHead(pack), NodesJson(nodes), DefsJson(defs))
  }

  function TemplateJson(t: Template, nodes: seq<PortableNode>, defs: seq<PortableDef>): Json {
    Envelope(TEMPLATE, "template", TemplateHead(t), NodesJson(nodes), DefsJson(defs))
  }

  function DefinitionFields(d: Definition): seq<Field> {
    [
      Field("type", Str(d.defType)),
      Field("name", Str(d.name)),
      Field("content", Str(d.content)),
      Field("meta", d.meta)
    ]
  }

  function ExportDefinition(d: Definition): Json {
    Obj([
      Field("format", Str(DEFINITION)),
      Field("version", FromNat(1)),
      Field("definition", Obj(DefinitionFields(d)))
    ])
  }

  /** The whole tree, whatever is enabled. */
  method ExportPack(pack: Pack, nodes: seq<Node>, defs: Definitions) returns (v: Json)
    ensures v == PackJson(pack, NodesOut(nodes, defs, |nodes|), DefsOut(Used(nodes, defs)))
  {
    hide NodesJson, DefsJson, NodesOut, DefsOut, Used, PackHead;
    var outNodes, outDefs := InlineSubtree(nodes, defs);
    v := Envelope(PACK, "pack", PackHead(pack), outNodes, outDefs);
  }

  /** What is enabled, with all its ancestors. */
  method ExportTemplate(t: Template, nodes: seq<Node>, defs: Definitions) returns (v: Json)
    requires UniqueIds(nodes)
    ensures var kept := KeptOf(ById(nodes), nodes);
            v == TemplateJson(t, NodesOut(kept, defs, |kept|), DefsOut(Used(kept, defs)))
  {
    hide NodesJson, DefsJson, NodesOut, DefsOut, Used, TemplateHead, KeptOf;
    var kept := FilterEnabled(nodes);
    var outNodes, outDefs := InlineSubtree(kept, defs);
    v := Envelope(TEMPLATE, "template", TemplateHead(t), outNodes, outDefs);
  }

  // ---- Reading ----

  datatype PortableDoc =
    | DefinitionDoc(defType: string, name: string, content: string, meta: Json)
    | TemplateDoc(template: Template, nodes: seq<PortableNode>, defs: seq<PortableDef>)
    | PackDoc(pack: Pack, nodes: seq<PortableNode>, defs: seq<PortableDef>)

  datatype ParseError = BadKind(kind: string) | Missing(what: string) | UnknownFormat

  function StrAt(v: Json, key: string): string {
    var r := AsStr(Get(v, key));
    if r.Some? then r.value else ""
  }

  function MetaAt(v: Json): Json {
    var r := Get(v, "meta");
    if r.Some? then r.value else Obj([])
  }

  function ItemsAt(v: Json, key: string): seq<Json> {
    var r := Get(v, key);
    if r.Some? && r.value.Arr? then r.value.items else []
  }

  function ParseDef(v: Json): PortableDef {
    PortableDef(StrAt(v, "local_id"), StrAt(v, "type"), StrAt(v, "name"), StrAt(v, "content"), MetaAt(v))
  }

  function ParseDefs(items: seq<Json>): (defs: seq<PortableDef>)
    ensures |defs| == |items| && forall k :: 0 <= k < |items| ==> defs[k] == ParseDef(items[k])
  {
    seq(|items|, k requires 0 <= k < |items| => ParseDef(items[k]))
  }

  function ParseNode(v: Json): Result<PortableNode, ParseError> {
    var kind := KindOf(StrAt(v, "kind"));
    if kind.None? then Err(BadKind(StrAt(v, "kind")))
    else
      var enabled := Get(v, "enabled");
      var order := AsI64(Get(v, "sort_order"));
      Ok(PortableNode(
        StrAt(v, "local_id"),
        AsStr(Get(v, "parent_local_id")),
        kind.value,
        AsStr(Get(v, "tag")),
        AsStr(Get(v, "def_local_id")),
        if enabled.Some? && enabled.value.Bool? then enabled.value.b else true,
        if order.Some? then order.value else 0,
        MetaAt(v)))
  }

  /** The first node that cannot be read fails the whole list. */
  function ParseNodes(items: seq<Json>): Result<seq<PortableNode>, ParseError> {
    if items == [] then Ok([])
    else
      match ParseNodes(items[..|items| - 1])
      case Err(e) => Err(e)
      case Ok(front) =>
        match ParseNode(items[|items| - 1])
        case Err(e) => Err(e)
        case Ok(n) => Ok(front + [n])
  }

  function ParseIdentity(v: Option<Json>): Identity {
    if v.None? || !v.value.Obj? then Identity(None, None)
    else
      var name, avatar := Get(v.value, "display_name"), Get(v.value, "avatar");
      if (name.Some? && !name.value.Str? && !name.value.Null?) || (avatar.Some? && !avatar.value.Str? && !avatar.value.Null?)
      then Identity(None, None)
      else Identity(AsStr(name), AsStr(avatar))
  }

  function ParsePortable(v: Json): Result<PortableDoc, ParseError> {
    var format := AsStr(Get(v, "format"));
    if format == Some(DEFINITION) then
      match Get(v, "definition")
      case None => Err(Missing("definition"))
      case Some(d) => Ok(DefinitionDoc(StrAt(d, "type"), StrAt(d, "name"), StrAt(d, "content"), MetaAt(d)))
    else if format == Some(TEMPLATE) then
      match Get(v, "template")
      case None => Err(Missing("template"))
      case Some(t) =>
        (match ParseNodes(ItemsAt(v, "nodes"))
         case Err(e) => Err(e)
         case Ok(nodes) =>
           Ok(TemplateDoc(Template(StrAt(t, "name"), MetaAt(t)), nodes, ParseDefs(ItemsAt(v, "definitions")))))
    else if format == Some(PACK) then
      match Get(v, "pack")
      case None => Err(Missing("pack"))
      case Some(p) =>
        (match ParseNodes(ItemsAt(v, "nodes"))
         case Err(e) => Err(e)
         case Ok(nodes) =>
           Ok(PackDoc(
             Pack(StrAt(p, "name"), ParseIdentity(Get(p, "identity")), MetaAt(p)),
             nodes, ParseDefs(ItemsAt(v, "definitions")))))
    else Err(UnknownFormat)
  }

  // ---- What is written reads back ----

  lemma NodeReadsBack(n: PortableNode)
    ensures ParseNode(Obj(NodeFields(n))) == Result.Ok(n)
  {
    hide Lookup, KindText, KindOf, FromInt, AsI64;
    var f := NodeFields(n);
    LookupAt(f, 0);
    LookupAt(f, 1);
    LookupAt(f, 2);
    LookupAt(f, 3);
    LookupAt(f, 4);
    LookupAt(f, 5);
    LookupAt(f, 6);
    LookupAt(f, 7);
    KindRoundTrip(n.kind);
    IntRoundTrip(n.sortOrder);
  }

  lemma DefReadsBack(d: PortableDef)
    ensures ParseDef(Obj(DefFields(d))) == d
  {
    hide Lookup;
    var f := DefFields(d);
    LookupAt(f, 0);
    LookupAt(f, 1);
    LookupAt(f, 2);
    LookupAt(f, 3);
    LookupAt(f, 4);
  }

  lemma DefsReadBack(defs: seq<PortableDef>)
    ensures ParseDefs(DefsJson(defs)) == defs
  {
    hide DefFields, ParseDef;
    forall k | 0 <= k < |defs|
      ensures ParseDefs(DefsJson(defs))[k] == defs[k]
    {
      DefReadsBack(defs[k]);
    }
  }

  lemma {:induction false} NodesReadBack(nodes: seq<PortableNode>)
    ensures ParseNodes(NodesJson(nodes)) == Result.Ok(nodes)
  {
    hide NodeFields, ParseNode;
    if nodes != [] {
      var front, n := nodes[..|nodes| - 1], nodes[|nodes| - 1];
      NodesReadBack(front);
      NodeReadsBack(n);
      assert NodesJson(nodes)[..|nodes| - 1] == NodesJson(front);
      assert nodes == front + [n];
    }
  }

  lemma {:induction false} LookupNone(fields: seq<Field>, key: string)
    requires forall j :: 0 <= j < |fields| ==> fields[j].key != key
    ensures Lookup(fields, key) == None
  {
    if fields != [] {
      assert fields[0].key != key;
      assert forall j :: 0 <= j < |fields| - 1 ==> fields[1..][j] == fields[j + 1];
      LookupNone(fields[1..], key);
    }
  }

  lemma IdentityReadsBack(id: Identity)
    ensures ParseIdentity(Some(Obj(IdentityFields(id)))) == id
  {
    hide Lookup;
    var f := IdentityFields(id);
    if id.displayName.Some? {
      LookupAt(f, 0);
    } else {
      LookupNone(f, "display_name");
    }
    if id.avatar.Some? {
      LookupAt(f, |f| - 1);
    } else {
      LookupNone(f, "avatar");
    }
  }

  lemma EnvelopeParts(format: string, headKey: string, head: seq<Field>, nodes: seq<Json>, defs: seq<Json>)
    requires headKey == "pack" || headKey == "template"
    ensures var v := Envelope(format, headKey, head, nodes, defs);
            && AsStr(Get(v, "format")) == Some(format)
            && Get(v, headKey) == Some(Obj(head))
            && ItemsAt(v, "nodes") == nodes
            && ItemsAt(v, "definitions") == defs
  {
    hide Lookup;
    var f := Envelope(format, headKey, head, nodes, defs).fields;
    LookupAt(f, 0);
    LookupAt(f, 2);
    LookupAt(f, 3);
    LookupAt(f, 4);
  }

  /** Reading an exported pack gives back its name, identity and meta, and the exported nodes and definitions. */
  lemma PackReadsBack(pack: Pack, nodes: seq<PortableNode>, defs: seq<PortableDef>)
    ensures ParsePortable(PackJson(pack, nodes, defs)) == Result.Ok(PackDoc(pack, nodes, defs))
  {
    EnvelopeParts(PACK, "pack", PackHead(pack), NodesJson(nodes), DefsJson(defs));
    PackHeadReadsBack(pack);
    NodesReadBack(nodes);
    DefsReadBack(defs);
    FormatsDiffer();
    hide Lookup, Envelope, PackHead, NodesJson, DefsJson, ParseNodes, ParseDefs, ParseIdentity, PACK, TEMPLATE, DEFINITION;
  }

  lemma FormatsDiffer()
    ensures PACK != TEMPLATE && PACK != DEFINITION && TEMPLATE != DEFINITION
  {
    assert |PACK| == 12 && |TEMPLATE| == 16 && |DEFINITION| == 18;
  }

  lemma PackHeadReadsBack(pack: Pack)
    ensures var p := Obj(PackHead(pack));
            Pack(StrAt(p, "name"), ParseIdentity(Get(p, "identity")), MetaAt(p)) == pack
  {
    hide Lookup, IdentityFields, ParseIdentity;
    var f := PackHead(pack);
    LookupAt(f, 0);
    LookupAt(f, 1);
    LookupAt(f, 2);
    IdentityReadsBack(pack.identity);
  }

  lemma TemplateReadsBack(t: Template, nodes: seq<PortableNode>, defs: seq<PortableDef>)
    ensures ParsePortable(TemplateJson(t, nodes, defs)) == Result.Ok(TemplateDoc(t, nodes, defs))
  {
    EnvelopeParts(TEMPLATE, "template", TemplateHead(t), NodesJson(nodes), DefsJson(defs));
    TemplateHeadReadsBack(t);
    NodesReadBack(nodes);
    DefsReadBack(defs);
    FormatsDiffer();
    hide Lookup, Envelope, TemplateHead, NodesJson, DefsJson, ParseNodes, ParseDefs, PACK, TEMPLATE, DEFINITION;
  }

  lemma TemplateHeadReadsBack(t: Template)
    ensures var p := Obj(TemplateHead(t)); Template(StrAt(p, "name"), MetaAt(p)) == t
  {
    hide Lookup;
    LookupAt(TemplateHead(t), 0);
    LookupAt(TemplateHead(t), 1);
  }

  /** A single definition reads back with everything but its id. */
  lemma DefinitionReadsBack(d: Definition)
    ensures ParsePortable(ExportDefinition(d)) == Result.Ok(DefinitionDoc(d.defType, d.name, d.content, d.meta))
  {
    hide Lookup, DEFINITION, PACK, TEMPLATE;
    var outer, f := ExportDefinition(d).fields, DefinitionFields(d);
    LookupAt(outer, 0);
    LookupAt(outer, 2);
    LookupAt(f, 0);
    LookupAt(f, 1);
    LookupAt(f, 2);
    LookupAt(f, 3);
  }

  // ---- The exported tree is the tree ----

  /** The positions of the exported nodes, up to the k-th. */
  function Positions(kept: seq<Node>, defs: Definitions, k: nat): seq<nat>
    requires k <= |kept|
  {
    if k == 0 then []
    else Positions(kept, defs, k - 1) + if Exported(kept[k - 1], defs) then [k - 1] else []
  }

  lemma {:induction false} PositionsMeaning(kept: seq<Node>, defs: Definitions, k: nat)
    requires k <= |kept|
    ensures var at := Positions(kept, defs, k);
            && (forall a :: 0 <= a < |at| ==> at[a] < k && Exported(kept[at[a]], defs))
            && (forall a, b :: 0 <= a < b < |at| ==> at[a] < at[b])
            && (forall j :: 0 <= j < k && Exported(kept[j], defs) ==> j in at)
  {
    hide Exported;
    if k > 0 {
      PositionsMeaning(kept, defs, k - 1);
    }
  }

  lemma {:induction false} NodesAtPositions(kept: seq<Node>, defs: Definitions, k: nat)
    requires k <= |kept|
    ensures var at := Positions(kept, defs, k);
            && |NodesOut(kept, defs, k)| == |at|
            && forall a :: 0 <= a < |at| ==> at[a] < k && NodesOut(kept, defs, k)[a] == NodeOut(kept, defs, at[a])
  {
    hide NodeOut, Exported;
    if k > 0 {
      NodesAtPositions(kept, defs, k - 1);
    }
  }

  lemma NodeLidInjective(i: nat, j: nat)
    requires NodeLid(i) == NodeLid(j)
    ensures i == j
  {
    assert NodeLid(i)[1..] == NatText(i) && NodeLid(j)[1..] == NatText(j);
    NatTextInjective(i, j);
  }

  lemma DefLidInjective(i: nat, j: nat)
    requires DefLid(i) == DefLid(j)
    ensures i == j
  {
    assert DefLid(i)[1..] == NatText(i) && DefLid(j)[1..] == NatText(j);
    NatTextInjective(i, j);
  }

  lemma OwnIndex(kept: seq<Node>, k: nat)
    requires UniqueIds(kept) && k < |kept|
    ensures NodeIndex(kept, kept[k].id) == k
  {
    var i := NodeIndex(kept, kept[k].id);
    assert i < |kept| && kept[i].id == kept[k].id;
  }

  /** Local ids are distinct, and a local parent is the local id of the parent. */
  lemma ParentsAgree(kept: seq<Node>, defs: Definitions, i: nat, j: nat)
    requires UniqueIds(kept) && i < |kept| && j < |kept|
    ensures NodeOut(kept, defs, i).localId == NodeOut(kept, defs, j).localId <==> i == j
    ensures NodeOut(kept, defs, i).parentLocalId == Some(NodeOut(kept, defs, j).localId) <==>
              kept[i].parent == Some(kept[j].id)
  {
    hide NodeLid, Used, DefLid;
    OwnIndex(kept, i);
    OwnIndex(kept, j);
    if NodeLid(i) == NodeLid(j) {
      NodeLidInjective(i, j);
    }
    if kept[i].parent.Some? {
      var p := NodeIndex(kept, kept[i].parent.value);
      if p < |kept| && NodeLid(p) == NodeLid(j) {
        NodeLidInjective(p, j);
      }
    }
  }

  /** The definitions are stored under their own ids. */
  predicate Keyed(defs: Definitions) {
    forall id :: id in defs ==> defs[id].id == id
  }

  /** Every definition that a ref names is among the used ones. */
  lemma {:induction false} UsedHasAll(kept: seq<Node>, defs: Definitions, i: nat)
    requires i < |kept| && DefOf(kept[i], defs).Some?
    ensures var used := Used(kept, defs); DefIndex(used, DefOf(kept[i], defs).value.id) < |used|
  {
    var n := |kept| - 1;
    var front, last := kept[..n], DefOf(kept[n], defs);
    var before, used := Used(front, defs), Used(kept, defs);
    assert used == if last.Some? then Joined(before, last.value) else before;
    hide DefOf, DefIndex, Used;
    if i < n {
      UsedHasAll(front, defs, i);
      DefIndexStays(before, used, DefOf(kept[i], defs).value.id);
    } else if DefIndex(before, last.value.id) == |before| {
      assert used[|before|] == last.value;
    }
  }

  /** Every used definition is named by a ref. */
  lemma {:induction false} UsedIsNamed(kept: seq<Node>, defs: Definitions, k: nat) returns (i: nat)
    requires k < |Used(kept, defs)|
    ensures i < |kept| && DefOf(kept[i], defs) == Some(Used(kept, defs)[k])
  {
    var n := |kept| - 1;
    var front, last := kept[..n], DefOf(kept[n], defs);
    var before, used := Used(front, defs), Used(kept, defs);
    assert used == if last.Some? then Joined(before, last.value) else before;
    hide DefOf, DefIndex, Used;
    if k < |before| {
      i := UsedIsNamed(front, defs, k);
    } else {
      assert used == before + [last.value];
      i := n;
    }
  }

  predicate DistinctIds(used: seq<Definition>) {
    forall j, k :: 0 <= j < k < |used| ==> used[j].id != used[k].id
  }

  lemma JoinedIsDistinct(used: seq<Definition>, d: Definition)
    requires DistinctIds(used)
    ensures DistinctIds(Joined(used, d))
  {
    hide DefIndex;
  }

  lemma {:induction false} UsedIsDistinct(kept: seq<Node>, defs: Definitions)
    ensures DistinctIds(Used(kept, defs))
  {
    if kept != [] {
      var front, last := kept[..|kept| - 1], DefOf(kept[|kept| - 1], defs);
      hide DefOf, DefIndex;
      UsedIsDistinct(front, defs);
      if last.Some? {
        JoinedIsDistinct(Used(front, defs), last.value);
      }
    }
  }

  predicate Names(kept: seq<Node>, defs: Definitions, d: Definition) {
    exists i :: 0 <= i < |kept| && DefOf(kept[i], defs) == Some(d)
  }

  lemma UsedMeaning(kept: seq<Node>, defs: Definitions)
    ensures var used := Used(kept, defs);
            && (forall i :: 0 <= i < |kept| && DefOf(kept[i], defs).Some? ==>
                  DefIndex(used, DefOf(kept[i], defs).value.id) < |used|)
            && (forall k :: 0 <= k < |used| ==> Names(kept, defs, used[k]))
            && DistinctIds(used)
  {
    hide DefOf, DefIndex, Used;
    var used := Used(kept, defs);
    forall i | 0 <= i < |kept| && DefOf(kept[i], defs).Some?
      ensures DefIndex(used, DefOf(kept[i], defs).value.id) < |used|
    {
      UsedHasAll(kept, defs, i);
    }
    forall k | 0 <= k < |used|
      ensures Names(kept, defs, used[k])
    {
      var i := UsedIsNamed(kept, defs, k);
      assert DefOf(kept[i], defs) == Some(used[k]);
    }
    UsedIsDistinct(kept, defs);
  }

  /** A ref's local definition is there, with what the definition holds. */
  lemma RefResolves(kept: seq<Node>, defs: Definitions, i: nat)
    requires Keyed(defs) && i < |kept| && kept[i].kind.Ref? && Exported(kept[i], defs)
    ensures var out := DefsOut(Used(kept, defs));
            var d := defs[kept[i].definition.value];
            exists k :: 0 <= k < |out| && NodeOut(kept, defs, i).defLocalId == Some(out[k].localId)
                        && out[k] == PortableDef(out[k].localId, d.defType, d.name, d.content, d.meta)
  {
    hide DefLid;
    var used := Used(kept, defs);
    var d := defs[kept[i].definition.value];
    UsedMeaning(kept, defs);
    assert DefOf(kept[i], defs) == Some(d);
    var k := DefIndex(used, d.id);
    var j :| 0 <= j < |kept| && DefOf(kept[j], defs) == Some(used[k]);
    assert used[k] == d;
    assert DefsOut(used)[k] == DefOut(d, k);
  }

  /** Two refs share a local definition exactly when they share a definition. */
  lemma SharingAgrees(kept: seq<Node>, defs: Definitions, i: nat, j: nat)
    requires Keyed(defs) && i < |kept| && j < |kept|
    requires kept[i].kind.Ref? && Exported(kept[i], defs) && kept[j].kind.Ref? && Exported(kept[j], defs)
    ensures NodeOut(kept, defs, i).defLocalId == NodeOut(kept, defs, j).defLocalId <==>
              kept[i].definition == kept[j].definition
  {
    hide DefLid, ParentLid, NodeIndex;
    var used := Used(kept, defs);
    var a, b := defs[kept[i].definition.value], defs[kept[j].definition.value];
    assert DefOf(kept[i], defs) == Some(a) && DefOf(kept[j], defs) == Some(b);
    UsedMeaning(kept, defs);
    var x, y := DefIndex(used, a.id), DefIndex(used, b.id);
    if DefLid(x) == DefLid(y) {
      DefLidInjective(x, y);
      assert used[x].id == a.id && used[y].id == b.id;
    }
  }

  ghost predicate ParentsAreThere(out: seq<PortableNode>) {
    forall a :: 0 <= a < |out| && out[a].parentLocalId.Some? ==>
      exists b :: 0 <= b < |out| && out[a].parentLocalId == Some(out[b].localId)
  }

  /** Refs are leaves, as far as the skipped ones go. */
  predicate NoSkippedParent(kept: seq<Node>, defs: Definitions) {
    forall i, j :: (0 <= i < |kept| && 0 <= j < |kept| && Exported(kept[i], defs) && kept[i].parent == Some(kept[j].id))
      ==> Exported(kept[j], defs)
  }

  lemma NoneSkippedThenThere(kept: seq<Node>, defs: Definitions)
    requires UniqueIds(kept) && NoSkippedParent(kept, defs)
    ensures ParentsAreThere(NodesOut(kept, defs, |kept|))
  {
    hide NodeOut, Exported, NodeLid, NodesOut, Positions, UniqueIds;
    var out, at := NodesOut(kept, defs, |kept|), Positions(kept, defs, |kept|);
    NodesAtPositions(kept, defs, |kept|);
    PositionsMeaning(kept, defs, |kept|);
    forall a | 0 <= a < |out| && out[a].parentLocalId.Some?
      ensures exists b :: 0 <= b < |out| && out[a].parentLocalId == Some(out[b].localId)
    {
      var j := ParentPosition(kept, defs, at[a]);
      ParentsAgree(kept, defs, at[a], j);
      assert j in at;
      var b :| 0 <= b < |at| && at[b] == j;
      assert out[b] == NodeOut(kept, defs, j);
    }
  }

  lemma ThereThenNoneSkipped(kept: seq<Node>, defs: Definitions)
    requires UniqueIds(kept) && ParentsAreThere(NodesOut(kept, defs, |kept|))
    ensures NoSkippedParent(kept, defs)
  {
    hide NodeOut, Exported, NodeLid, NodesOut, Positions, UniqueIds;
    var out, at := NodesOut(kept, defs, |kept|), Positions(kept, defs, |kept|);
    NodesAtPositions(kept, defs, |kept|);
    PositionsMeaning(kept, defs, |kept|);
    forall i, j | 0 <= i < |kept| && 0 <= j < |kept| && Exported(kept[i], defs) && kept[i].parent == Some(kept[j].id)
      ensures Exported(kept[j], defs)
    {
      ParentsAgree(kept, defs, i, j);
      assert i in at;
      var a :| 0 <= a < |at| && at[a] == i;
      assert out[a] == NodeOut(kept, defs, i);
      var b :| 0 <= b < |out| && out[a].parentLocalId == Some(out[b].localId);
      ParentsAgree(kept, defs, j, at[b]);
    }
  }

  /** Every local parent is among the exported nodes exactly when no exported node has a skipped ref as its parent. */
  lemma ParentsResolve(kept: seq<Node>, defs: Definitions)
    requires UniqueIds(kept)
    ensures ParentsAreThere(NodesOut(kept, defs, |kept|)) <==> NoSkippedParent(kept, defs)
  {
    hide ParentsAreThere, NoSkippedParent, NodesOut, UniqueIds;
    if NoSkippedParent(kept, defs) {
      NoneSkippedThenThere(kept, defs);
    }
    if ParentsAreThere(NodesOut(kept, defs, |kept|)) {
      ThereThenNoneSkipped(kept, defs);
    }
  }

  /** A folder under a ref that has lost its definition: the ref is skipped, and the folder names a parent nobody has. */
  lemma ParentIsLost()
    ensures var kept := [
              Node("a", None, 0, Ref, None, None, true, Null),
              Node("b", Some("a"), 1, Folder, None, None, true, Null)];
            var out := NodesOut(kept, map[], 2);
            && UniqueIds(kept) && !NoSkippedParent(kept, map[])
            && |out| == 1 && out[0].localId == "n1" && out[0].parentLocalId == Some("n0")
            && !ParentsAreThere(out)
  {
    var kept := [
      Node("a", None, 0, Ref, None, None, true, Null),
      Node("b", Some("a"), 1, Folder, None, None, true, Null)];
    assert Exported(kept[1], map[]) && !Exported(kept[0], map[]) && kept[1].parent == Some(kept[0].id);
    assert NodeIndex(kept, "a") == 0 && NodeIndex(kept, "b") == 1;
    assert NodeLid(0) == "n0" && NodeLid(1) == "n1" by {
      assert NatText(0) == "0" && NatText(1) == "1";
    }
    assert NodesOut(kept, map[], 1) == [] by {
      assert NodesOut(kept, map[], 0) == [];
    }
    assert NodesOut(kept, map[], 2) == [NodeOut(kept, map[], 1)];
  }

  lemma ParentPosition(kept: seq<Node>, defs: Definitions, i: nat) returns (j: nat)
    requires i < |kept| && NodeOut(kept, defs, i).parentLocalId.Some?
    ensures j < |kept| && kept[i].parent == Some(kept[j].id)
  {
    j := NodeIndex(kept, kept[i].parent.value);
  }

  /** The parsed nodes and definitions are the tree, up to renaming ids. */
  ghost predicate SameTree(nodes: seq<Node>, defs: Definitions, out: seq<PortableNode>, outDefs: seq<PortableDef>) {
    && |out| == |nodes|
    && (forall i :: 0 <= i < |nodes| ==> SameNode(nodes[i], out[i]))
    && (forall i, j :: 0 <= i < |nodes| && 0 <= j < |nodes| ==>
          && (out[i].localId == out[j].localId <==> i == j)
          && (out[i].parentLocalId == Some(out[j].localId) <==> nodes[i].parent == Some(nodes[j].id)))
    && ParentsAreThere(out)
    && (forall i, j :: 0 <= i < |nodes| && 0 <= j < |nodes| && nodes[i].kind.Ref? && nodes[j].kind.Ref? ==>
          (out[i].defLocalId == out[j].defLocalId <==> nodes[i].definition == nodes[j].definition))
    && (forall i :: 0 <= i < |nodes| && nodes[i].kind.Ref? ==> RefTold(nodes[i], defs, out[i], outDefs))
  }

  ghost predicate RefTold(n: Node, defs: Definitions, out: PortableNode, outDefs: seq<PortableDef>) {
    && n.definition.Some? && n.definition.value in defs
    && var d := defs[n.definition.value];
    exists k :: 0 <= k < |outDefs| && out.defLocalId == Some(outDefs[k].localId)
                && outDefs[k] == PortableDef(outDefs[k].localId, d.defType, d.name, d.content, d.meta)
  }

  lemma {:induction false} AllExported(nodes: seq<Node>, defs: Definitions, k: nat)
    requires k <= |nodes| && forall i :: 0 <= i < |nodes| ==> Exported(nodes[i], defs)
    ensures var out := NodesOut(nodes, defs, k);
            |out| == k && forall i :: 0 <= i < k ==> out[i] == NodeOut(nodes, defs, i)
  {
    hide NodeOut, Exported;
    if k > 0 {
      AllExported(nodes, defs, k - 1);
    }
  }

  lemma NodeKeepsItsColumns(nodes: seq<Node>, defs: Definitions, i: nat)
    requires i < |nodes| && Exported(nodes[i], defs)
    ensures SameNode(nodes[i], NodeOut(nodes, defs, i))
  {
    hide NodeLid, DefLid, Used, ParentLid;
  }

  /**
   * When every ref has its definition, exporting and reading back gives the same tree: the same nodes in the same order,
   * the same parents, the same sharing of definitions, and every reference resolved.
   */
  lemma ExportKeepsTheTree(nodes: seq<Node>, defs: Definitions)
    requires UniqueIds(nodes) && Keyed(defs) && forall i :: 0 <= i < |nodes| ==> Exported(nodes[i], defs)
    ensures SameTree(nodes, defs, NodesOut(nodes, defs, |nodes|), DefsOut(Used(nodes, defs)))
  {
    hide NodeOut, NodesOut, Used, DefsOut, UniqueIds, Keyed, RefTold, ParentsAreThere, SameNode;
    var out, outDefs := NodesOut(nodes, defs, |nodes|), DefsOut(Used(nodes, defs));
    AllExported(nodes, defs, |nodes|);
    ParentsResolve(nodes, defs);
    hide Exported;
    forall i | 0 <= i < |nodes|
      ensures SameNode(nodes[i], out[i])
      ensures nodes[i].kind.Ref? ==> RefTold(nodes[i], defs, out[i], outDefs)
    {
      NodeKeepsItsColumns(nodes, defs, i);
      if nodes[i].kind.Ref? {
        RefIsTold(nodes, defs, i);
      }
    }
    forall i, j | 0 <= i < |nodes| && 0 <= j < |nodes|
      ensures out[i].localId == out[j].localId <==> i == j
      ensures out[i].parentLocalId == Some(out[j].localId) <==> nodes[i].parent == Some(nodes[j].id)
    {
      ParentsAgree(nodes, defs, i, j);
    }
    forall i, j | 0 <= i < |nodes| && 0 <= j < |nodes| && nodes[i].kind.Ref? && nodes[j].kind.Ref?
      ensures out[i].defLocalId == out[j].defLocalId <==> nodes[i].definition == nodes[j].definition
    {
      SharingAgrees(nodes, defs, i, j);
    }
  }

  lemma RefIsTold(nodes: seq<Node>, defs: Definitions, i: nat)
    requires Keyed(defs) && i < |nodes| && nodes[i].kind.Ref? && Exported(nodes[i], defs)
    ensures RefTold(nodes[i], defs, NodeOut(nodes, defs, i), DefsOut(Used(nodes, defs)))
  {
    hide NodeOut, Used, DefsOut;
    RefResolves(nodes, defs, i);
  }

  predicate SameNode(n: Node, out: PortableNode) {
    && out.kind == n.kind && out.tag == n.tag && out.enabled == n.enabled
    && out.sortOrder == n.sortOrder && out.meta == n.meta
    && (out.defLocalId.Some? <==> n.kind.Ref?)
  }

  /** A pack that is exported and read back. */
  method PackRoundTrip(pack: Pack, nodes: seq<Node>, defs: Definitions) returns (doc: Result<PortableDoc, ParseError>)
    ensures doc.Ok? && doc.value.PackDoc? && doc.value.pack == pack
    ensures UniqueIds(nodes) && Keyed(defs) && (forall i :: 0 <= i < |nodes| ==> Exported(nodes[i], defs)) ==>
              SameTree(nodes, defs, doc.value.nodes, doc.value.defs)
  {
    hide SameTree, NodesOut, Used, DefsOut, PackJson, ParsePortable;
    var v := ExportPack(pack, nodes, defs);
    PackReadsBack(pack, NodesOut(nodes, defs, |nodes|), DefsOut(Used(nodes, defs)));
    doc := ParsePortable(v);
    if UniqueIds(nodes) && Keyed(defs) && forall i :: 0 <= i < |nodes| ==> Exported(nodes[i], defs) {
      ExportKeepsTheTree(nodes, defs);
    }
  }

  /** A template that is exported and read back is the tree of its enabled part. */
  method TemplateRoundTrip(t: Template, nodes: seq<Node>, defs: Definitions) returns (doc: Result<PortableDoc, ParseError>)
    requires UniqueIds(nodes)
    ensures doc.Ok? && doc.value.TemplateDoc? && doc.value.template == t
    ensures var kept := KeptOf(ById(nodes), nodes);
            Keyed(defs) && (forall i :: 0 <= i < |kept| ==> Exported(kept[i], defs)) ==>
              SameTree(kept, defs, doc.value.nodes, doc.value.defs)
  {
    hide SameTree, NodesOut, Used, DefsOut, TemplateJson, ParsePortable, KeptOf;
    var v := ExportTemplate(t, nodes, defs);
    ghost var kept := KeptOf(ById(nodes), nodes);
    TemplateReadsBack(t, NodesOut(kept, defs, |kept|), DefsOut(Used(kept, defs)));
    doc := ParsePortable(v);
    KeptMeaning(ById(nodes), nodes);
    if Keyed(defs) && forall i :: 0 <= i < |kept| ==> Exported(kept[i], defs) {
      ExportKeepsTheTree(kept, defs);
    }
  }
}

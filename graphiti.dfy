/**
 * The Graphiti backend (lib/backends/graphiti.py): its static operation
 * registry, the discovery lookups over a registry, the placeholder operation
 * bodies, and the two parsers that turn raw service results into records.
 */
module Graphiti {
  import opened Wrappers
  import opened Models

  /** One registry entry's payload: everything but the operation's name. */
  datatype OpDetails = OpDetails(description: string, params: map<string, string>, example: string)

  /** An operation registry, in declaration order (a Python dict keeps insertion order). */
  type Registry = seq<(string, OpDetails)>

  /** What get_schema returns: the entry's description and parameter hints. */
  datatype Schema = Schema(description: string, params: map<string, string>)

  /** The Graphiti registry, the `OPERATIONS` class constant. */
  const OPERATIONS: Registry := [
    ("query", OpDetails(
      "Search for memories by semantic similarity",
      map["query" := "str", "limit" := "int"],
      "memory.query(\"auth patterns\", limit=10)")),
    ("search_facts", OpDetails(
      "Search for relationships between entities",
      map["query" := "str", "limit" := "int"],
      "memory.search_facts(\"authentication flow\", limit=20)")),
    ("save", OpDetails(
      "Save new episode to knowledge graph",
      map["content" := "str", "title" := "str (optional)"],
      "memory.save(\"Decision: Using JWT for auth\", title=\"Auth Decision\")")),
    ("explore", OpDetails(
      "Deep traversal from a starting memory",
      map["starting_point" := "str", "depth" := "int"],
      "memory.explore(\"authentication\", depth=2)")),
    ("list_recent", OpDetails(
      "List recent memories",
      map["limit" := "int"],
      "memory.list_recent(limit=20)"))
  ]

  /** The limits explore passes to its two sub-searches. */
  const EXPLORE_NODE_LIMIT := 10
  const EXPLORE_FACT_LIMIT := 20

  /** The placeholder id save returns. */
  const STUB_EPISODE_ID := "stub-episode-id"

  /** The named parameters of save, which `**metadata` cannot also supply. */
  const SAVE_PARAMETERS: set<string> := {"self", "content", "group_id"}

  // ---------------------------------------------------------------------------
  // Discovery over a registry
  // ---------------------------------------------------------------------------

  /** The operation names of a registry, in order. */
  function Names(reg: Registry): (r: seq<string>)
    ensures |r| == |reg| && forall i :: 0 <= i < |reg| ==> r[i] == reg[i].0
  {
    seq(|reg|, i requires 0 <= i < |reg| => reg[i].0)
  }

  /** The names of a list of operation descriptions, in order. */
  function InfoNames(ops: seq<OperationInfo>): (r: seq<string>)
    ensures |r| == |ops| && forall i :: 0 <= i < |ops| ==> r[i] == ops[i].name
  {
    seq(|ops|, i requires 0 <= i < |ops| => ops[i].name)
  }

  /** `operation in OPERATIONS` and `OPERATIONS[operation]`: the entry of the
      first occurrence of the name, or nothing when it is not registered. */
  function Lookup(reg: Registry, op: string): (r: Option<OpDetails>)
    ensures r.None? <==> op !in Names(reg)
  {
    if reg == [] then None
    else if reg[0].0 == op then Some(reg[0].1)
    else
      NamesCons(reg);
      Lookup(reg[1..], op)
  }

  /** The names of a non-empty registry are its first name, then the rest's. */
  lemma NamesCons(reg: Registry)
    requires reg != []
    ensures Names(reg) == [reg[0].0] + Names(reg[1..])
  {
  }

  /** What Lookup finds is the entry of the first occurrence of the name. */
  lemma {:induction false} LookupFirst(reg: Registry, op: string)
    requires Lookup(reg, op).Some?
    ensures exists i :: 0 <= i < |reg| && reg[i] == (op, Lookup(reg, op).value) &&
                        forall j :: 0 <= j < i ==> reg[j].0 != op
  {
    if reg[0].0 != op {
      LookupFirst(reg[1..], op);
      var i :| 0 <= i < |reg| - 1 && reg[1..][i] == (op, Lookup(reg[1..], op).value) &&
               forall j :: 0 <= j < i ==> reg[1..][j].0 != op;
      assert reg[i + 1] == reg[1..][i];
      forall j | 0 <= j < i + 1
        ensures reg[j].0 != op
      {
        if j > 0 {
          assert reg[j] == reg[1..][j - 1];
        }
      }
    } else {
      assert reg[0] == (op, Lookup(reg, op).value);
    }
  }

  /** get_capabilities: one description per registry entry, in registry order. */
  function Capabilities(reg: Registry): (r: seq<OperationInfo>)
    ensures |r| == |reg|
    ensures forall i :: 0 <= i < |reg| ==>
      r[i] == OperationInfo(reg[i].0, reg[i].1.description, reg[i].1.params, reg[i].1.example)
  {
    seq(|reg|, i requires 0 <= i < |reg| =>
      OperationInfo(reg[i].0, reg[i].1.description, reg[i].1.params, reg[i].1.example))
  }

  /** get_schema: the description and parameter hints, or an unknown-operation
      error exactly when the name is not in the registry. */
  function GetSchema(reg: Registry, op: string): (r: Result<Schema, Error>)
    ensures r.Failure? <==> op !in Names(reg)
    ensures r.Failure? ==> r.error == UnknownOperation(op)
    ensures r.Success? ==> r.value == Schema(Lookup(reg, op).value.description, Lookup(reg, op).value.params)
  {
    match Lookup(reg, op)
    case None => Failure(UnknownOperation(op))
    case Some(details) => Success(Schema(details.description, details.params))
  }

  /** get_examples: a one-element list holding the entry's example, under the
      same failure condition as get_schema. */
  function GetExamples(reg: Registry, op: string): (r: Result<seq<string>, Error>)
    ensures r.Failure? <==> op !in Names(reg)
    ensures r.Failure? ==> r.error == UnknownOperation(op)
    ensures r.Success? ==> r.value == [Lookup(reg, op).value.example]
  {
    match Lookup(reg, op)
    case None => Failure(UnknownOperation(op))
    case Some(details) => Success([details.example])
  }

  /** Discovery agrees with itself: get_schema and get_examples succeed for
      precisely the names get_capabilities lists, and what they return is the
      first listed description of that name. */
  lemma DiscoveryAgrees(reg: Registry, op: string)
    ensures GetSchema(reg, op).Success? <==> op in InfoNames(Capabilities(reg))
    ensures GetExamples(reg, op).Success? <==> op in InfoNames(Capabilities(reg))
    ensures GetSchema(reg, op).Success? ==>
      exists i :: 0 <= i < |Capabilities(reg)| && Capabilities(reg)[i].name == op &&
        GetSchema(reg, op).value == Schema(Capabilities(reg)[i].description, Capabilities(reg)[i].params) &&
        GetExamples(reg, op).value == [Capabilities(reg)[i].example]
  {
    assert InfoNames(Capabilities(reg)) == Names(reg);
    if Lookup(reg, op).Some? {
      LookupFirst(reg, op);
    }
  }

  /** The Graphiti registry lists exactly its five operations, in this order. */
  lemma GraphitiOperationNames()
    ensures Names(OPERATIONS) == ["query", "search_facts", "save", "explore", "list_recent"]
    ensures InfoNames(Capabilities(OPERATIONS)) == Names(OPERATIONS)
  {
  }

  /** The schema of "query" is its description and parameter hints. */
  lemma QuerySchemaExample()
    ensures GetSchema(OPERATIONS, "query") ==
      Success(Schema("Search for memories by semantic similarity", map["query" := "str", "limit" := "int"]))
  {
  }

  /** The examples of "list_recent" are its single registered example. */
  lemma ListRecentExamplesExample()
    ensures GetExamples(OPERATIONS, "list_recent") == Success(["memory.list_recent(limit=20)"])
  {
    assert OPERATIONS[4].0 == "list_recent";
    assert Names(OPERATIONS)[4] == "list_recent";
  }

  /** An unregistered name such as "delete" is rejected by both lookups. */
  lemma UnknownOperationExample()
    ensures GetSchema(OPERATIONS, "delete") == Failure(UnknownOperation("delete"))
    ensures GetExamples(OPERATIONS, "delete") == Failure(UnknownOperation("delete"))
  {
    GraphitiOperationNames();
  }

  // ---------------------------------------------------------------------------
  // Operations (placeholder bodies: the remote calls are not part of the code)
  // ---------------------------------------------------------------------------

  /** query: the placeholder finds nothing, for every input. */
  function Query(query: string, groupId: string, limit: int): (r: seq<Memory>)
    ensures r == []
  {
    []
  }

  /** search_facts: the placeholder finds nothing, for every input. */
  function SearchFacts(query: string, groupId: string, limit: int): (r: seq<Relationship>)
    ensures r == []
  {
    []
  }

  /** save: the placeholder returns a fixed id for any metadata whose keys bind
      as `**metadata`; a key naming one of save's own parameters is a
      `TypeError` raised by the call itself. */
  function Save(content: string, groupId: string, metadata: Metadata): (r: Result<string, Error>)
    ensures r.Success? <==> forall k :: k in metadata ==> k != "self" && k != "content" && k != "group_id"
    ensures r.Success? ==> r.value == STUB_EPISODE_ID
    ensures r.Failure? ==> r.error == MultipleValues(metadata.Keys * {"self", "content", "group_id"})
  {
    match BindKeywords(metadata, SAVE_PARAMETERS)
    case Some(e) => Failure(e)
    case None => Success(STUB_EPISODE_ID)
  }

  /** list_recent: the placeholder finds nothing, for every input. */
  function ListRecent(groupId: string, limit: int): (r: seq<Memory>)
    ensures r == []
  {
    []
  }

  /** explore: the nodes of a query with limit 10 and the facts of a search with
      limit 20, both seeded by the starting point; depth is not used. */
  function Explore(startingPoint: string, groupId: string, depth: int): (r: KnowledgeGraph)
    ensures r.nodes == Query(startingPoint, groupId, EXPLORE_NODE_LIMIT)
    ensures r.edges == SearchFacts(startingPoint, groupId, EXPLORE_FACT_LIMIT)
  {
    var nodes := Query(startingPoint, groupId, EXPLORE_NODE_LIMIT);
    var edges := SearchFacts(startingPoint, groupId, EXPLORE_FACT_LIMIT);
    KnowledgeGraph(nodes, edges)
  }

  /** The traversal depth has no effect on explore. */
  lemma ExploreIgnoresDepth(startingPoint: string, groupId: string, d1: int, d2: int)
    ensures Explore(startingPoint, groupId, d1) == Explore(startingPoint, groupId, d2)
  {
  }

  // ---------------------------------------------------------------------------
  // Result parsing
  // ---------------------------------------------------------------------------

  /** One node or fact object of a raw service result, string-valued. */
  type RawRecord = map<string, string>

  /** A raw service result: named lists of records. */
  type RawResult = map<string, seq<RawRecord>>

  /** `record.get(key, "")`. */
  function FieldOr(rec: RawRecord, key: string): string {
    if key in rec then rec[key] else ""
  }

  /** `result.get(key, [])`. */
  function ListOr(result: RawResult, key: string): seq<RawRecord> {
    if key in result then result[key] else []
  }

  /** The creation time of a node: its `created_at` text parsed by `fromIso`, or
      `now` when the node has none. */
  function NodeCreatedAt(node: RawRecord, now: Timestamp, fromIso: string -> Option<Timestamp>): Option<Timestamp> {
    if "created_at" in node then fromIso(node["created_at"]) else Some(now)
  }

  /** _parse_nodes_to_memories: one memory per element of `result["nodes"]`, in
      order, or the first unparsable creation time. */
  method ParseNodesToMemories(result: RawResult, now: Timestamp, fromIso: string -> Option<Timestamp>)
    returns (r: Result<seq<Memory>, Error>)
    ensures var nodes := ListOr(result, "nodes");
      r.Success? <==> forall i :: 0 <= i < |nodes| ==> NodeCreatedAt(nodes[i], now, fromIso).Some?
    ensures var nodes := ListOr(result, "nodes");
      r.Success? ==> (
        && |r.value| == |nodes|
        && forall i :: 0 <= i < |nodes| ==>
          && r.value[i].id == FieldOr(nodes[i], "uuid")
          && r.value[i].content == FieldOr(nodes[i], "name")
          && Some(r.value[i].createdAt) == NodeCreatedAt(nodes[i], now, fromIso)
          && r.value[i].importance == None
          && r.value[i].metadata == map["summary" := Str(FieldOr(nodes[i], "summary"))])
    ensures var nodes := ListOr(result, "nodes");
      r.Failure? ==> exists i :: (
        && 0 <= i < |nodes|
        && NodeCreatedAt(nodes[i], now, fromIso).None?
        && r.error == MalformedTimestamp(nodes[i]["created_at"])
        && forall j :: 0 <= j < i ==> NodeCreatedAt(nodes[j], now, fromIso).Some?)
  {
    var nodes := ListOr(result, "nodes");
    var memories: seq<Memory> := [];
    for i := 0 to |nodes|
      invariant |memories| == i
      invariant forall j :: 0 <= j < i ==> NodeCreatedAt(nodes[j], now, fromIso).Some?
      invariant forall j :: 0 <= j < i ==>
          && memories[j].id == FieldOr(nodes[j], "uuid")
          && memories[j].content == FieldOr(nodes[j], "name")
          && Some(memories[j].createdAt) == NodeCreatedAt(nodes[j], now, fromIso)
          && memories[j].importance == None
          && memories[j].metadata == map["summary" := Str(FieldOr(nodes[j], "summary"))]
    {
      var node := nodes[i];
      var createdAt := NodeCreatedAt(node, now, fromIso);
      if createdAt.None? {
        return Failure(MalformedTimestamp(node["created_at"]));
      }
      memories := memories + [Memory(
        id := FieldOr(node, "uuid"),
        content := FieldOr(node, "name"),
        createdAt := createdAt.value,
        metadata := map["summary" := Str(FieldOr(node, "summary"))])];
    }
    return Success(memories);
  }

  /** _parse_facts_to_relationships: one relationship per element of
      `result["facts"]`, in order. */
  method ParseFactsToRelationships(result: RawResult) returns (r: seq<Relationship>)
    ensures var facts := ListOr(result, "facts");
      |r| == |facts| &&
      forall i :: 0 <= i < |facts| ==>
        && r[i].source == FieldOr(facts[i], "source_node_uuid")
        && r[i].target == FieldOr(facts[i], "target_node_uuid")
        && r[i].relationType == FieldOr(facts[i], "fact")
        && r[i].metadata == map["created_at" := Str(FieldOr(facts[i], "created_at"))]
  {
    var facts := ListOr(result, "facts");
    var relationships: seq<Relationship> := [];
    for i := 0 to |facts|
      invariant |relationships| == i
      invariant forall j :: 0 <= j < i ==>
        && relationships[j].source == FieldOr(facts[j], "source_node_uuid")
        && relationships[j].target == FieldOr(facts[j], "target_node_uuid")
        && relationships[j].relationType == FieldOr(facts[j], "fact")
        && relationships[j].metadata == map["created_at" := Str(FieldOr(facts[j], "created_at"))]
    {
      var fact := facts[i];
      relationships := relationships + [Relationship(
        source := FieldOr(fact, "source_node_uuid"),
        target := FieldOr(fact, "target_node_uuid"),
        relationType := FieldOr(fact, "fact"),
        metadata := map["created_at" := Str(FieldOr(fact, "created_at"))])];
    }
    return relationships;
  }
}

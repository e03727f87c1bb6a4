/**
 * The command bridge (lib/bridge.py): one process-wide adapter, built on first
 * use, and wrapper operations that turn the adapter's records into plain
 * dictionaries for the command layer.
 */
module Bridge {
  import opened Wrappers
  import opened Models
  import opened Config
  import opened Backends
  import opened Adapter

  /** A plain dictionary handed to the command layer. */
  type Fields = map<string, Value>

  /** A list comprehension `[enc(x) for x in xs]`. */
  function Encode<T, V>(xs: seq<T>, enc: T -> V): (r: seq<V>)
    ensures |r| == |xs|
  {
    seq(|xs|, i requires 0 <= i < |xs| => enc(xs[i]))
  }

  /** Decodes every element, failing if any element fails. */
  function DecodeAll<V, U>(vs: seq<V>, dec: V -> Option<U>): (r: Option<seq<U>>)
    ensures r.Some? ==> |r.value| == |vs|
  {
    if vs == [] then Some([])
    else match (dec(vs[0]), DecodeAll(vs[1..], dec))
      case (Some(u), Some(us)) => Some([u] + us)
      case _ => None
  }

  /** Decoding each element after encoding it gives `ys`, so decoding the whole
      encoded list gives `ys`. */
  lemma {:induction false} DecodeAllInverse<T, V, U>(xs: seq<T>, ys: seq<U>, enc: T -> V, dec: V -> Option<U>)
    requires |xs| == |ys|
    requires forall i :: 0 <= i < |xs| ==> dec(enc(xs[i])) == Some(ys[i])
    ensures DecodeAll(Encode(xs, enc), dec) == Some(ys)
  {
    if xs != [] {
      var e := Encode(xs, enc);
      assert e[1..] == Encode(xs[1..], enc);
      assert dec(e[0]) == Some(ys[0]);
      DecodeAllInverse(xs[1..], ys[1..], enc, dec);
      assert [ys[0]] + ys[1..] == ys;
    }
  }

  // ---- translation of records to dictionaries ----

  /** None becomes null, an integer stays an integer. */
  function ImportanceValue(importance: Option<int>): Value {
    if importance.Some? then Int(importance.value) else Null
  }

  /** The dictionary memory_query and memory_list_recent build for one memory. */
  function MemoryFields(m: Memory, iso: Timestamp -> string): (d: Fields)
    ensures d.Keys == {"id", "content", "created_at", "importance", "metadata"}
  {
    map["id" := Str(m.id), "content" := Str(m.content), "created_at" := Str(iso(m.createdAt)),
        "importance" := ImportanceValue(m.importance), "metadata" := Dict(m.metadata)]
  }

  /** The dictionary memory_explore builds for one node: like a memory's, without importance. */
  function NodeFields(m: Memory, iso: Timestamp -> string): (d: Fields)
    ensures d.Keys == {"id", "content", "created_at", "metadata"}
  {
    map["id" := Str(m.id), "content" := Str(m.content), "created_at" := Str(iso(m.createdAt)),
        "metadata" := Dict(m.metadata)]
  }

  /** The dictionary for one relationship; its relation type is published under "type". */
  function RelationshipFields(r: Relationship): (d: Fields)
    ensures d.Keys == {"source", "target", "type", "metadata"}
  {
    map["source" := Str(r.source), "target" := Str(r.target), "type" := Str(r.relationType),
        "metadata" := Dict(r.metadata)]
  }

  /** The dictionary memory_list_operations builds for one operation. */
  function OperationFields(op: OperationInfo): (d: Fields)
    ensures d.Keys == {"name", "description", "params", "example"}
  {
    map["name" := Str(op.name), "description" := Str(op.description),
        "params" := Dict(map k | k in op.params :: Str(op.params[k])), "example" := Str(op.example)]
  }

  /** The list memory_query and memory_list_recent return: one dictionary per
      memory, in the adapter's order. */
  function MemoryList(ms: seq<Memory>, iso: Timestamp -> string): (r: seq<Fields>)
    ensures |r| == |ms| && forall i :: 0 <= i < |ms| ==> r[i] == MemoryFields(ms[i], iso)
  {
    Encode(ms, (m: Memory) => MemoryFields(m, iso))
  }

  /** The list memory_search_facts returns: one dictionary per relationship, in order. */
  function RelationshipList(rs: seq<Relationship>): (r: seq<Fields>)
    ensures |r| == |rs| && forall i :: 0 <= i < |rs| ==> r[i] == RelationshipFields(rs[i])
  {
    Encode(rs, RelationshipFields)
  }

  /** The list memory_list_operations returns: one dictionary per operation, in order. */
  function OperationList(ops: seq<OperationInfo>): (r: seq<Fields>)
    ensures |r| == |ops| && forall i :: 0 <= i < |ops| ==> r[i] == OperationFields(ops[i])
  {
    Encode(ops, OperationFields)
  }

  /** The dictionary memory_explore builds: node and edge dictionaries, in graph order. */
  function GraphFields(g: KnowledgeGraph, iso: Timestamp -> string): (d: Fields)
    ensures d.Keys == {"nodes", "edges"}
  {
    map["nodes" := List(Encode(g.nodes, (n: Memory) => Dict(NodeFields(n, iso)))),
        "edges" := List(Encode(g.edges, (e: Relationship) => Dict(RelationshipFields(e))))]
  }

  /** The dictionary memory_get_config builds: the backend name as configured
      (not lower-cased), the group id, and a fixed placeholder for the file. */
  function ConfigFields(backend: string, groupId: string): (d: Fields)
    ensures d.Keys == {"backend", "group_id", "config_file"}
    ensures d["backend"] == Str(backend) && d["group_id"] == Str(groupId)
    ensures d["config_file"] == Str("auto-detected")
  {
    map["backend" := Str(backend), "group_id" := Str(groupId), "config_file" := Str("auto-detected")]
  }

  // ---- decoders: the reference the translations are proved against ----

  function TextAt(d: Fields, key: string): Option<string> {
    if key in d && d[key].Str? then Some(d[key].s) else None
  }

  function MapAt(d: Fields, key: string): Option<Metadata> {
    if key in d && d[key].Dict? then Some(d[key].entries) else None
  }

  function TimeAt(d: Fields, key: string, fromIso: string -> Option<Timestamp>): Option<Timestamp> {
    if TextAt(d, key).Some? then fromIso(TextAt(d, key).value) else None
  }

  /** Reads a memory back from its dictionary. */
  function MemoryFromFields(d: Fields, fromIso: string -> Option<Timestamp>): Option<Memory> {
    if && TextAt(d, "id").Some? && TextAt(d, "content").Some?
       && TimeAt(d, "created_at", fromIso).Some? && MapAt(d, "metadata").Some?
       && "importance" in d && (d["importance"].Null? || d["importance"].Int?)
    then Some(Memory(TextAt(d, "id").value, TextAt(d, "content").value,
                     TimeAt(d, "created_at", fromIso).value,
                     if d["importance"].Int? then Some(d["importance"].i) else None,
                     MapAt(d, "metadata").value))
    else None
  }

  /** Reads a memory back from a node dictionary, which carries no importance. */
  function NodeFromFields(d: Fields, fromIso: string -> Option<Timestamp>): Option<Memory> {
    if && TextAt(d, "id").Some? && TextAt(d, "content").Some?
       && TimeAt(d, "created_at", fromIso).Some? && MapAt(d, "metadata").Some?
    then Some(Memory(TextAt(d, "id").value, TextAt(d, "content").value,
                     TimeAt(d, "created_at", fromIso).value, None, MapAt(d, "metadata").value))
    else None
  }

  function RelationshipFromFields(d: Fields): Option<Relationship> {
    if TextAt(d, "source").Some? && TextAt(d, "target").Some? && TextAt(d, "type").Some? && MapAt(d, "metadata").Some?
    then Some(Relationship(TextAt(d, "source").value, TextAt(d, "target").value, TextAt(d, "type").value,
                           MapAt(d, "metadata").value))
    else None
  }

  function OperationFromFields(d: Fields): Option<OperationInfo> {
    if && TextAt(d, "name").Some? && TextAt(d, "description").Some? && TextAt(d, "example").Some?
       && MapAt(d, "params").Some? && (forall k :: k in MapAt(d, "params").value ==> MapAt(d, "params").value[k].Str?)
    then
      var params := MapAt(d, "params").value;
      Some(OperationInfo(TextAt(d, "name").value, TextAt(d, "description").value,
                         map k | k in params :: params[k].s, TextAt(d, "example").value))
    else None
  }

  function GraphFromFields(d: Fields, fromIso: string -> Option<Timestamp>): Option<KnowledgeGraph> {
    if "nodes" in d && d["nodes"].List? && "edges" in d && d["edges"].List? then
      var nodes := DecodeAll(d["nodes"].items, (v: Value) => if v.Dict? then NodeFromFields(v.entries, fromIso) else None);
      var edges := DecodeAll(d["edges"].items, (v: Value) => if v.Dict? then RelationshipFromFields(v.entries) else None);
      if nodes.Some? && edges.Some? then Some(KnowledgeGraph(nodes.value, edges.value)) else None
    else None
  }

  /** `fromIso` undoes `iso`, as `datetime.fromisoformat` undoes `isoformat`. */
  ghost predicate IsoInverse(iso: Timestamp -> string, fromIso: string -> Option<Timestamp>) {
    forall t :: fromIso(iso(t)) == Some(t)
  }

  // ---- round trips: nothing but the node importance is lost ----

  lemma MemoryRoundTrip(m: Memory, iso: Timestamp -> string, fromIso: string -> Option<Timestamp>)
    requires IsoInverse(iso, fromIso)
    ensures MemoryFromFields(MemoryFields(m, iso), fromIso) == Some(m)
  {
    assert fromIso(iso(m.createdAt)) == Some(m.createdAt);
  }

  lemma NodeRoundTrip(m: Memory, iso: Timestamp -> string, fromIso: string -> Option<Timestamp>)
    requires IsoInverse(iso, fromIso)
    ensures NodeFromFields(NodeFields(m, iso), fromIso) == Some(m.(importance := None))
    ensures "importance" !in NodeFields(m, iso)
  {
    assert fromIso(iso(m.createdAt)) == Some(m.createdAt);
  }

  lemma RelationshipRoundTrip(r: Relationship)
    ensures RelationshipFromFields(RelationshipFields(r)) == Some(r)
  {
  }

  lemma OperationRoundTrip(op: OperationInfo)
    ensures OperationFromFields(OperationFields(op)) == Some(op)
  {
    var params := MapAt(OperationFields(op), "params").value;
    assert (map k | k in params :: params[k].s) == op.params;
  }

  lemma MemoryListRoundTrip(ms: seq<Memory>, iso: Timestamp -> string, fromIso: string -> Option<Timestamp>)
    requires IsoInverse(iso, fromIso)
    ensures DecodeAll(MemoryList(ms, iso), (d: Fields) => MemoryFromFields(d, fromIso)) == Some(ms)
  {
    forall i | 0 <= i < |ms|
      ensures MemoryFromFields(MemoryFields(ms[i], iso), fromIso) == Some(ms[i])
    {
      MemoryRoundTrip(ms[i], iso, fromIso);
    }
    DecodeAllInverse(ms, ms, (m: Memory) => MemoryFields(m, iso), (d: Fields) => MemoryFromFields(d, fromIso));
  }

  lemma RelationshipListRoundTrip(rs: seq<Relationship>)
    ensures DecodeAll(RelationshipList(rs), RelationshipFromFields) == Some(rs)
  {
    forall i | 0 <= i < |rs|
      ensures RelationshipFromFields(RelationshipFields(rs[i])) == Some(rs[i])
    {
      RelationshipRoundTrip(rs[i]);
    }
    DecodeAllInverse(rs, rs, RelationshipFields, RelationshipFromFields);
  }

  lemma OperationListRoundTrip(ops: seq<OperationInfo>)
    ensures DecodeAll(OperationList(ops), OperationFromFields) == Some(ops)
  {
    forall i | 0 <= i < |ops|
      ensures OperationFromFields(OperationFields(ops[i])) == Some(ops[i])
    {
      OperationRoundTrip(ops[i]);
    }
    DecodeAllInverse(ops, ops, OperationFields, OperationFromFields);
  }

  /** Memory with its importance dropped, as the node dictionaries publish it. */
  function WithoutImportance(ms: seq<Memory>): (r: seq<Memory>)
    ensures |r| == |ms|
    ensures forall i :: 0 <= i < |r| ==> r[i] == ms[i].(importance := None)
  {
    seq(|ms|, i requires 0 <= i < |ms| => ms[i].(importance := None))
  }

  lemma GraphRoundTrip(g: KnowledgeGraph, iso: Timestamp -> string, fromIso: string -> Option<Timestamp>)
    requires IsoInverse(iso, fromIso)
    ensures GraphFromFields(GraphFields(g, iso), fromIso) == Some(KnowledgeGraph(WithoutImportance(g.nodes), g.edges))
  {
    var encNode := (n: Memory) => Dict(NodeFields(n, iso));
    var decNode := (v: Value) => if v.Dict? then NodeFromFields(v.entries, fromIso) else None;
    var encEdge := (e: Relationship) => Dict(RelationshipFields(e));
    var decEdge := (v: Value) => if v.Dict? then RelationshipFromFields(v.entries) else None;
    forall i | 0 <= i < |g.nodes|
      ensures decNode(encNode(g.nodes[i])) == Some(WithoutImportance(g.nodes)[i])
    {
      NodeRoundTrip(g.nodes[i], iso, fromIso);
    }
    forall i | 0 <= i < |g.edges|
      ensures decEdge(encEdge(g.edges[i])) == Some(g.edges[i])
    {
      RelationshipRoundTrip(g.edges[i]);
    }
    DecodeAllInverse(g.nodes, WithoutImportance(g.nodes), encNode, decNode);
    DecodeAllInverse(g.edges, g.edges, encEdge, decEdge);
  }

  // ---- the process-wide adapter ----

  /** The named parameter of memory_save (`content`), which `**metadata` cannot
      also supply. */
  const MEMORY_SAVE_PARAMETERS: set<string> := {"content"}

  /** The bridge module's global state: the adapter `_adapter`, unset until a
      build succeeds, together with the Forgetful behaviour and the timestamp
      formatter. What a build reads (the working directory, the files, git) is
      given to each call, since it is read afresh by every call that builds. */
  class Session {
    var adapter: MemoryAdapter?
    /** The environment and file reader of the build that set the adapter. */
    ghost var origin: Option<(Env, Path -> Parsed)>
    const forgetful: ForgetfulImpl
    const iso: Timestamp -> string

    /** A set adapter is the one `MemoryAdapter()` built in the environment of
        the call that set it. */
    ghost predicate Valid()
      reads this
    {
      && (adapter == null <==> origin.None?)
      && (adapter != null ==> adapter.BuiltFrom(None, origin.value.0, origin.value.1, forgetful))
    }

    /** How get_adapter left the adapter, given the one `before` it: a set
        adapter is kept; an unset one is built in `env`, and stays unset exactly
        when that build fails. */
    ghost predicate Acquired(before: MemoryAdapter?, env: Env, read: Path -> Parsed)
      reads this
    {
      if before != null then adapter == before
      else
        && (adapter != null <==> BuildFailure(None, env, read, forgetful).None?)
        && (adapter != null ==> adapter.BuiltFrom(None, env, read, forgetful))
    }

    /** The outcome of a wrapper call that only reads through the adapter: it
        succeeds exactly when the adapter is set afterwards, and otherwise
        reports why building it in `env` failed. */
    ghost predicate Outcome<T>(r: Result<T, Error>, env: Env, read: Path -> Parsed)
      reads this
    {
      && (r.Success? <==> adapter != null)
      && (r.Failure? ==> Some(r.error) == BuildFailure(None, env, read, forgetful))
    }

    /** Module import: the adapter starts unset. */
    constructor (forgetful: ForgetfulImpl, iso: Timestamp -> string)
      ensures adapter == null && Valid()
      ensures this.forgetful == forgetful && this.iso == iso
    {
      adapter := null;
      origin := None;
      this.forgetful := forgetful;
      this.iso := iso;
    }

    /** get_adapter: build the adapter on first use and keep it; every later call
        returns that same object. A failed build leaves the adapter unset, so a
        later call in another environment tries again. */
    method GetAdapter(env: Env, read: Path -> Parsed) returns (r: Result<MemoryAdapter, Error>)
      requires Valid()
      modifies this
      ensures Valid() && Acquired(old(adapter), env, read) && Outcome(r, env, read)
      ensures r.Success? ==> r.value == adapter
      ensures old(adapter) == null && adapter != null ==> fresh(adapter)
    {
      if adapter == null {
        var created := MemoryAdapter.Create(None, env, read, forgetful);
        if created.Failure? {
          return Failure(created.error);
        }
        adapter := created.value;
        origin := Some((env, read));
      }
      return Success(adapter);
    }

    /** memory_query: the adapter's query results as memory dictionaries. */
    method MemoryQuery(env: Env, read: Path -> Parsed, query: string, limit: int := DEFAULT_QUERY_LIMIT)
      returns (r: Result<seq<Fields>, Error>)
      requires Valid()
      modifies this
      ensures Valid() && Acquired(old(adapter), env, read) && Outcome(r, env, read)
      ensures r.Success? ==> r.value == MemoryList(Backends.Query(adapter.backend, query, adapter.groupId, limit), iso)
    {
      var got := GetAdapter(env, read);
      if got.Failure? {
        return Failure(got.error);
      }
      var memories := got.value.Query(query, limit);
      return Success(MemoryList(memories, iso));
    }

    /** memory_save: the identifier the adapter's save returns. A `content`
        keyword fails at memory_save's own call, before any adapter is built. */
    method MemorySave(env: Env, read: Path -> Parsed, content: string, metadata: Metadata)
      returns (r: Result<string, Error>)
      requires Valid()
      modifies this
      ensures Valid()
      ensures "content" in metadata ==> r == Failure(MultipleValues({"content"})) && adapter == old(adapter)
      ensures "content" !in metadata ==> Acquired(old(adapter), env, read)
      ensures "content" !in metadata && adapter == null ==>
        r.Failure? && Some(r.error) == BuildFailure(None, env, read, forgetful)
      ensures "content" !in metadata && adapter != null ==>
        r == SaveOutcome(adapter.backend, content, adapter.groupId, metadata)
    {
      var clash := BindKeywords(metadata, MEMORY_SAVE_PARAMETERS);
      if clash.Some? {
        assert metadata.Keys * MEMORY_SAVE_PARAMETERS == {"content"};
        return Failure(clash.value);
      }
      var got := GetAdapter(env, read);
      if got.Failure? {
        return Failure(got.error);
      }
      r := got.value.Save(content, metadata);
    }

    /** memory_list_recent: the adapter's recent memories as memory dictionaries. */
    method MemoryListRecent(env: Env, read: Path -> Parsed, limit: int := DEFAULT_RECENT_LIMIT)
      returns (r: Result<seq<Fields>, Error>)
      requires Valid()
      modifies this
      ensures Valid() && Acquired(old(adapter), env, read) && Outcome(r, env, read)
      ensures r.Success? ==> r.value == MemoryList(Backends.ListRecent(adapter.backend, adapter.groupId, limit), iso)
    {
      var got := GetAdapter(env, read);
      if got.Failure? {
        return Failure(got.error);
      }
      var memories := got.value.ListRecent(limit);
      return Success(MemoryList(memories, iso));
    }

    /** memory_explore: the adapter's graph as node and edge dictionaries. */
    method MemoryExplore(env: Env, read: Path -> Parsed, startingPoint: string, depth: int := DEFAULT_EXPLORE_DEPTH)
      returns (r: Result<Fields, Error>)
      requires Valid()
      modifies this
      ensures Valid() && Acquired(old(adapter), env, read) && Outcome(r, env, read)
      ensures r.Success? ==> r.value == GraphFields(Backends.Explore(adapter.backend, startingPoint, adapter.groupId, depth), iso)
    {
      var got := GetAdapter(env, read);
      if got.Failure? {
        return Failure(got.error);
      }
      var graph := got.value.Explore(startingPoint, depth);
      return Success(GraphFields(graph, iso));
    }

    /** memory_search_facts: the adapter's relationships as relationship dictionaries. */
    method MemorySearchFacts(env: Env, read: Path -> Parsed, query: string, limit: int := DEFAULT_FACTS_LIMIT)
      returns (r: Result<seq<Fields>, Error>)
      requires Valid()
      modifies this
      ensures Valid() && Acquired(old(adapter), env, read) && Outcome(r, env, read)
      ensures r.Success? ==> r.value == RelationshipList(Backends.SearchFacts(adapter.backend, query, adapter.groupId, limit))
    {
      var got := GetAdapter(env, read);
      if got.Failure? {
        return Failure(got.error);
      }
      var relationships := got.value.SearchFacts(query, limit);
      return Success(RelationshipList(relationships));
    }

    /** memory_list_operations: the active backend's capabilities as dictionaries. */
    method MemoryListOperations(env: Env, read: Path -> Parsed) returns (r: Result<seq<Fields>, Error>)
      requires Valid()
      modifies this
      ensures Valid() && Acquired(old(adapter), env, read) && Outcome(r, env, read)
      ensures r.Success? ==> r.value == OperationList(Backends.GetCapabilities(adapter.backend))
    {
      var got := GetAdapter(env, read);
      if got.Failure? {
        return Failure(got.error);
      }
      var ops := got.value.ListOperations();
      return Success(OperationList(ops));
    }

    /** memory_get_config: the configured backend name and the group id detected
        when the adapter was built, which by Valid() are those of the build's
        environment, not of this call's. */
    method MemoryGetConfig(env: Env, read: Path -> Parsed) returns (r: Result<Fields, Error>)
      requires Valid()
      modifies this
      ensures Valid() && Acquired(old(adapter), env, read) && Outcome(r, env, read)
      ensures r.Success? ==> r.value == ConfigFields(adapter.config.memory.backend, adapter.groupId)
    {
      var got := GetAdapter(env, read);
      if got.Failure? {
        return Failure(got.error);
      }
      var a := got.value;
      return Success(ConfigFields(a.config.memory.backend, a.groupId));
    }
  }
}

/**
 * The backend capability interface (lib/backends/base.py) as a closed set
 * of variants: Graphiti, whose code is modelled, and Forgetful, whose code is
 * not part of this model and whose behaviour is therefore supplied as values.
 */
module Backends {
  import opened Wrappers
  import opened Models
  import Graphiti

  /** The Forgetful backend's behaviour: its operation registry and one function
      per operation. They stand for code that is not part of this model. What the
      dispatch below assumes of that code:
      - its discovery answers follow the same registry rules as Graphiti's
        (`Graphiti.Capabilities`, `Graphiti.GetSchema`, `Graphiti.GetExamples`);
      - its save has the interface's signature (`self`, `content`, `group_id`,
        `**metadata`), so the same keywords clash (`BindKeywords`);
      - its operations never raise: each function here is total. */
  datatype ForgetfulImpl = ForgetfulImpl(
    registry: Graphiti.Registry,
    query: (string, string, int) -> seq<Memory>,
    searchFacts: (string, string, int) -> seq<Relationship>,
    save: (string, string, Metadata) -> string,
    explore: (string, string, int) -> KnowledgeGraph,
    listRecent: (string, int) -> seq<Memory>)

  /** The active backend of an adapter. */
  datatype Backend = GraphitiBackend | ForgetfulBackend(impl: ForgetfulImpl)

  /** The named parameters of the interface's save (`self`, `content`,
      `group_id`), which `**metadata` cannot also supply. */
  const SAVE_PARAMETERS: set<string> := {"self", "content", "group_id"}

  /** query, dispatched: Graphiti's placeholder finds nothing; Forgetful answers
      with its own function, given the arguments unchanged. */
  function Query(b: Backend, query: string, groupId: string, limit: int): (r: seq<Memory>)
    ensures b.GraphitiBackend? ==> r == []
    ensures b.ForgetfulBackend? ==> r == b.impl.query(query, groupId, limit)
  {
    match b
    case GraphitiBackend => Graphiti.Query(query, groupId, limit)
    case ForgetfulBackend(impl) => impl.query(query, groupId, limit)
  }

  /** search_facts, dispatched in the same way. */
  function SearchFacts(b: Backend, query: string, groupId: string, limit: int): (r: seq<Relationship>)
    ensures b.GraphitiBackend? ==> r == []
    ensures b.ForgetfulBackend? ==> r == b.impl.searchFacts(query, groupId, limit)
  {
    match b
    case GraphitiBackend => Graphiti.SearchFacts(query, groupId, limit)
    case ForgetfulBackend(impl) => impl.searchFacts(query, groupId, limit)
  }

  /** save, dispatched: for either backend the call fails, before the backend's
      code runs, exactly when a metadata key names a parameter of save; otherwise
      Graphiti gives its placeholder id and Forgetful its own answer. */
  function Save(b: Backend, content: string, groupId: string, metadata: Metadata): (r: Result<string, Error>)
    ensures r.Success? <==> metadata.Keys !! SAVE_PARAMETERS
    ensures r.Failure? ==> r.error == MultipleValues(metadata.Keys * SAVE_PARAMETERS)
    ensures b.GraphitiBackend? && r.Success? ==> r.value == Graphiti.STUB_EPISODE_ID
    ensures b.ForgetfulBackend? && r.Success? ==> r.value == b.impl.save(content, groupId, metadata)
  {
    match b
    case GraphitiBackend => Graphiti.Save(content, groupId, metadata)
    case ForgetfulBackend(impl) =>
      match BindKeywords(metadata, SAVE_PARAMETERS)
      case Some(e) => Failure(e)
      case None => Success(impl.save(content, groupId, metadata))
  }

  /** explore, dispatched: Graphiti's placeholder graph is empty. */
  function Explore(b: Backend, startingPoint: string, groupId: string, depth: int): (r: KnowledgeGraph)
    ensures b.GraphitiBackend? ==> r == KnowledgeGraph([], [])
    ensures b.ForgetfulBackend? ==> r == b.impl.explore(startingPoint, groupId, depth)
  {
    match b
    case GraphitiBackend => Graphiti.Explore(startingPoint, groupId, depth)
    case ForgetfulBackend(impl) => impl.explore(startingPoint, groupId, depth)
  }

  /** list_recent, dispatched. */
  function ListRecent(b: Backend, groupId: string, limit: int): (r: seq<Memory>)
    ensures b.GraphitiBackend? ==> r == []
    ensures b.ForgetfulBackend? ==> r == b.impl.listRecent(groupId, limit)
  {
    match b
    case GraphitiBackend => Graphiti.ListRecent(groupId, limit)
    case ForgetfulBackend(impl) => impl.listRecent(groupId, limit)
  }

  /** The static registry that drives a backend's discovery answers. */
  function Registry(b: Backend): (r: Graphiti.Registry)
    ensures b.GraphitiBackend? ==> r == Graphiti.OPERATIONS
    ensures b.ForgetfulBackend? ==> r == b.impl.registry
  {
    match b
    case GraphitiBackend => Graphiti.OPERATIONS
    case ForgetfulBackend(impl) => impl.registry
  }

  /** get_capabilities: the names listed are the registry's, in its order. */
  function GetCapabilities(b: Backend): (r: seq<OperationInfo>)
    ensures Graphiti.InfoNames(r) == Graphiti.Names(Registry(b))
    ensures var reg := Registry(b); |r| == |reg| && forall i :: 0 <= i < |reg| ==>
      r[i] == OperationInfo(reg[i].0, reg[i].1.description, reg[i].1.params, reg[i].1.example)
  {
    var r := Graphiti.Capabilities(Registry(b));
    assert Graphiti.InfoNames(r) == Graphiti.Names(Registry(b));
    r
  }

  /** get_schema: fails, with the unknown-operation error, exactly for names
      outside the backend's registry. */
  function GetSchema(b: Backend, op: string): (r: Result<Graphiti.Schema, Error>)
    ensures r.Success? <==> op in Graphiti.Names(Registry(b))
    ensures r.Failure? ==> r.error == UnknownOperation(op)
    ensures r.Success? ==> var entry := Graphiti.Lookup(Registry(b), op).value;
      r.value == Graphiti.Schema(entry.description, entry.params)
  {
    Graphiti.GetSchema(Registry(b), op)
  }

  /** get_examples: the same failure condition as get_schema. */
  function GetExamples(b: Backend, op: string): (r: Result<seq<string>, Error>)
    ensures r.Success? <==> op in Graphiti.Names(Registry(b))
    ensures r.Failure? ==> r.error == UnknownOperation(op)
    ensures r.Success? ==> r.value == [Graphiti.Lookup(Registry(b), op).value.example]
  {
    Graphiti.GetExamples(Registry(b), op)
  }

  /** For every backend, get_schema and get_examples raise the unknown-operation
      error for exactly the names get_capabilities does not list. */
  lemma DiscoveryConsistent(b: Backend, op: string)
    ensures GetSchema(b, op).Success? <==> op in Graphiti.InfoNames(GetCapabilities(b))
    ensures GetExamples(b, op).Success? <==> op in Graphiti.InfoNames(GetCapabilities(b))
    ensures GetSchema(b, op).Failure? ==> GetSchema(b, op).error == UnknownOperation(op)
    ensures GetExamples(b, op).Failure? ==> GetExamples(b, op).error == UnknownOperation(op)
  {
    Graphiti.DiscoveryAgrees(Registry(b), op);
  }
}

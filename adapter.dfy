/**
 * The adapter (lib/memory_adapter.py): chooses one backend by name when it is
 * built, fixes its configuration and group id for its lifetime, and forwards
 * every call to the backend with the group id added.
 */
module Adapter {
  import opened Wrappers
  import opened Models
  import opened Config
  import opened Backends
  import Graphiti

  const DEFAULT_QUERY_LIMIT := 10
  const DEFAULT_FACTS_LIMIT := 10
  const DEFAULT_EXPLORE_DEPTH := 2
  const DEFAULT_RECENT_LIMIT := 20

  /** The named parameters of the adapter's save (`self`, `content`), which
      `**metadata` cannot also supply. */
  const ADAPTER_SAVE_PARAMETERS: set<string> := {"self", "content"}

  /** `str.lower()` on one character, for the ASCII letters. */
  function LowerChar(c: char): char {
    if 'A' <= c <= 'Z' then (c as int + 32) as char else c
  }

  /** `str.lower()`, for the ASCII letters. */
  function Lower(s: string): (r: string)
    ensures |r| == |s| && forall i :: 0 <= i < |s| ==> r[i] == LowerChar(s[i])
  {
    seq(|s|, i requires 0 <= i < |s| => LowerChar(s[i]))
  }

  /** _create_backend: the lower-cased name selects Graphiti or Forgetful; any
      other name is a configuration error naming the lower-cased name. */
  function SelectBackend(name: string, forgetful: ForgetfulImpl): (r: Result<Backend, Error>)
    ensures r.Success? <==> Lower(name) == "graphiti" || Lower(name) == "forgetful"
    ensures Lower(name) == "graphiti" ==> r == Success(GraphitiBackend)
    ensures Lower(name) == "forgetful" ==> r.Success? && r.value.ForgetfulBackend? && r.value.impl == forgetful
    ensures r.Failure? ==> r.error == UnknownBackend(Lower(name))
  {
    var backendName := Lower(name);
    if backendName == "graphiti" then Success(GraphitiBackend)
    else if backendName == "forgetful" then Success(ForgetfulBackend(forgetful))
    else Failure(UnknownBackend(backendName))
  }

  /** Selection ignores case, and unknown names fail. */
  lemma SelectionExamples(forgetful: ForgetfulImpl)
    ensures SelectBackend("GraphITI", forgetful) == Success(GraphitiBackend)
    ensures SelectBackend("Forgetful", forgetful).Success? &&
            SelectBackend("Forgetful", forgetful).value.ForgetfulBackend?
    ensures SelectBackend("nosuchthing", forgetful) == Failure(UnknownBackend("nosuchthing"))
  {
    assert Lower("GraphITI") == "graphiti";
    assert Lower("Forgetful") == "forgetful";
    assert Lower("nosuchthing") == "nosuchthing";
  }

  /** `config or load_config()`: a supplied configuration (a dataclass instance,
      so always truthy) is used as it is and no file is read; without one, the
      configuration is what load_config finds in the environment. */
  function ResolvedConfig(config: Option<Config>, env: Env, read: Path -> Parsed): (r: Result<Config, Error>)
    ensures config.Some? ==> r == Success(config.value)
    ensures config.None? ==> r == LoadedConfig(env, read)
  {
    if config.Some? then Success(config.value) else LoadedConfig(env, read)
  }

  /** Why building an adapter fails, if it does: loading the configuration, or
      an unknown backend name. */
  function BuildFailure(config: Option<Config>, env: Env, read: Path -> Parsed, forgetful: ForgetfulImpl): (r: Option<Error>)
    ensures ResolvedConfig(config, env, read).Failure? ==> r == Some(ResolvedConfig(config, env, read).error)
    ensures ResolvedConfig(config, env, read).Success? ==>
      var name := Lower(ResolvedConfig(config, env, read).value.memory.backend);
      && (r.None? <==> name == "graphiti" || name == "forgetful")
      && (r.Some? ==> r.value == UnknownBackend(name))
  {
    match ResolvedConfig(config, env, read)
    case Failure(e) => Some(e)
    case Success(cfg) =>
      match SelectBackend(cfg.memory.backend, forgetful)
      case Failure(e) => Some(e)
      case Success(_) => None
  }

  /** What the adapter's save gives: the keywords bind against the adapter's own
      signature, then against the backend's once the group id is added; so the
      call succeeds exactly when no metadata key is `self`, `content` or
      `group_id`, and then the id is the backend's. */
  function SaveOutcome(b: Backend, content: string, groupId: string, metadata: Metadata): (r: Result<string, Error>)
    ensures r.Success? <==> forall k :: k in metadata ==> k != "self" && k != "content" && k != "group_id"
    ensures r.Success? ==> r == Backends.Save(b, content, groupId, metadata)
    ensures b.GraphitiBackend? && r.Success? ==> r.value == Graphiti.STUB_EPISODE_ID
    ensures r.Failure? ==> r.error.MultipleValues? && r.error.arguments != {}
    ensures r.Failure? ==> forall k :: k in r.error.arguments ==> k in metadata && k in {"self", "content", "group_id"}
  {
    match BindKeywords(metadata, ADAPTER_SAVE_PARAMETERS)
    case Some(e) => Failure(e)
    case None => Backends.Save(b, content, groupId, metadata)
  }

  /** An unknown backend name makes construction fail: no adapter exists for it. */
  lemma UnknownBackendFailsConstruction(config: Config, env: Env, read: Path -> Parsed, forgetful: ForgetfulImpl)
    requires Lower(config.memory.backend) != "graphiti" && Lower(config.memory.backend) != "forgetful"
    ensures BuildFailure(Some(config), env, read, forgetful) == Some(UnknownBackend(Lower(config.memory.backend)))
  {
  }

  class MemoryAdapter {
    const config: Config
    const groupId: string
    const backend: Backend

    /** The adapter whose configuration, group id and backend are `config`, `groupId`
        and `backend`, as `__init__` leaves them; `Create` is the `__init__` itself. */
    constructor (config: Config, groupId: string, backend: Backend)
      ensures this.config == config && this.groupId == groupId && this.backend == backend
    {
      this.config := config;
      this.groupId := groupId;
      this.backend := backend;
    }

    /** This adapter is what `MemoryAdapter(config)` builds in environment `env`:
        the resolved configuration, the group id detected once from it, and the
        backend its name selects. */
    ghost predicate BuiltFrom(config: Option<Config>, env: Env, read: Path -> Parsed, forgetful: ForgetfulImpl) {
      && ResolvedConfig(config, env, read).Success?
      && this.config == ResolvedConfig(config, env, read).value
      && this.groupId == DetectGroupId(this.config, env)
      && SelectBackend(this.config.memory.backend, forgetful).Success?
      && this.backend == SelectBackend(this.config.memory.backend, forgetful).value
    }

    /** `__init__`: resolve the configuration, detect the group id, select the
        backend; a configuration that cannot be loaded, or an unknown backend
        name, fails and no adapter is produced. */
    static method Create(config: Option<Config>, env: Env, read: Path -> Parsed, forgetful: ForgetfulImpl)
      returns (r: Result<MemoryAdapter, Error>)
      ensures r.Success? <==> BuildFailure(config, env, read, forgetful).None?
      ensures r.Success? ==> fresh(r.value) && r.value.BuiltFrom(config, env, read, forgetful)
      ensures r.Failure? ==> Some(r.error) == BuildFailure(config, env, read, forgetful)
    {
      var cfg: Config;
      if config.Some? {
        cfg := config.value;
      } else {
        var loaded := LoadConfig(env, read);
        if loaded.Failure? {
          return Failure(loaded.error);
        }
        cfg := loaded.value;
      }
      var groupId := DetectGroupId(cfg, env);
      var backend := SelectBackend(cfg.memory.backend, forgetful);
      if backend.Failure? {
        return Failure(backend.error);
      }
      var adapter := new MemoryAdapter(cfg, groupId, backend.value);
      return Success(adapter);
    }

    /** query: forwarded with the adapter's group id; the result is the backend's. */
    method Query(query: string, limit: int := DEFAULT_QUERY_LIMIT) returns (r: seq<Memory>)
      ensures r == Backends.Query(backend, query, groupId, limit)
    {
      r := Backends.Query(backend, query, groupId, limit);
    }

    /** search_facts: forwarded with the adapter's group id. */
    method SearchFacts(query: string, limit: int := DEFAULT_FACTS_LIMIT) returns (r: seq<Relationship>)
      ensures r == Backends.SearchFacts(backend, query, groupId, limit)
    {
      r := Backends.SearchFacts(backend, query, groupId, limit);
    }

    /** save: forwarded with the adapter's group id and the metadata unchanged,
        once the metadata binds as keywords of this method. */
    method Save(content: string, metadata: Metadata) returns (r: Result<string, Error>)
      ensures r == SaveOutcome(backend, content, groupId, metadata)
    {
      var clash := BindKeywords(metadata, ADAPTER_SAVE_PARAMETERS);
      if clash.Some? {
        return Failure(clash.value);
      }
      r := Backends.Save(backend, content, groupId, metadata);
    }

    /** explore: forwarded with the adapter's group id. */
    method Explore(startingPoint: string, depth: int := DEFAULT_EXPLORE_DEPTH) returns (r: KnowledgeGraph)
      ensures r == Backends.Explore(backend, startingPoint, groupId, depth)
    {
      r := Backends.Explore(backend, startingPoint, groupId, depth);
    }

    /** list_recent: forwarded with the adapter's group id. */
    method ListRecent(limit: int := DEFAULT_RECENT_LIMIT) returns (r: seq<Memory>)
      ensures r == Backends.ListRecent(backend, groupId, limit)
    {
      r := Backends.ListRecent(backend, groupId, limit);
    }

    /** list_operations: the backend's capabilities. */
    method ListOperations() returns (r: seq<OperationInfo>)
      ensures r == Backends.GetCapabilities(backend)
    {
      r := Backends.GetCapabilities(backend);
    }

    /** get_operation_schema: the backend's answer, its unknown-operation error included. */
    method GetOperationSchema(operation: string) returns (r: Result<Graphiti.Schema, Error>)
      ensures r == Backends.GetSchema(backend, operation)
    {
      r := Backends.GetSchema(backend, operation);
    }

    /** get_operation_examples: the backend's answer, its unknown-operation error included. */
    method GetOperationExamples(operation: string) returns (r: Result<seq<string>, Error>)
      ensures r == Backends.GetExamples(backend, operation)
    {
      r := Backends.GetExamples(backend, operation);
    }
  }
}

/**
 * The shared record types exchanged by the adapter, its backends and the
 * bridge (lib/models.py), together with the dynamic values that fill their
 * open metadata maps and the errors the core raises.
 */
module Models {
  import opened Wrappers

  /** A point in time. Its structure is never inspected by the core; only the
      bridge turns it into an ISO-8601 string, through a function it is given. */
  type Timestamp(==, !new)

  /** A dynamically typed value, as held by Python's `Dict[str, Any]`. */
  datatype Value =
    | Null
    | Str(s: string)
    | Int(i: int)
    | Bool(b: bool)
    | List(items: seq<Value>)
    | Dict(entries: map<string, Value>)

  /** An open metadata bag with string keys. */
  type Metadata = map<string, Value>

  /** One memory record. `importance` and `metadata` have the dataclass defaults:
      absent importance, and an empty map (a value, so never shared). */
  datatype Memory = Memory(
    id: string,
    content: string,
    createdAt: Timestamp,
    importance: Option<int> := None,
    metadata: Metadata := map[])

  /** A directed edge between two memory identifiers; nothing ties the identifiers
      to existing memories. */
  datatype Relationship = Relationship(
    source: string,
    target: string,
    relationType: string,
    metadata: Metadata := map[])

  /** Nodes and edges in the order a traversal produced them: no dedup,
      no cycle check, no referential integrity. */
  datatype KnowledgeGraph = KnowledgeGraph(nodes: seq<Memory>, edges: seq<Relationship>)

  /** Descriptive metadata of one backend operation. */
  datatype OperationInfo = OperationInfo(
    name: string,
    description: string,
    params: map<string, string>,
    example: string)

  /** The exceptions the core raises: `ValueError`s, the configuration-file
      failures (from YAML parsing and attribute access), and the `TypeError`
      of a keyword argument that clashes with a named parameter. */
  datatype Error =
    | UnknownOperation(operation: string)
    | UnknownBackend(backend: string)
    | MalformedConfig(reason: string)
    | MalformedTimestamp(text: string)
    | MultipleValues(arguments: set<string>)

  /** Python's binding of `**kwargs` against a signature's named parameters
      (`self` included, for a method): a keyword that names one of them gives
      that parameter a second value, and the call raises a `TypeError` before
      any of the callee's code runs. */
  function BindKeywords(kwargs: Metadata, named: set<string>): (r: Option<Error>)
    ensures r.None? <==> kwargs.Keys !! named
    ensures r.Some? ==> r.value.MultipleValues? && r.value.arguments != {} &&
                        forall k :: k in r.value.arguments ==> k in kwargs && k in named
  {
    var clash := kwargs.Keys * named;
    if clash == {} then
      assert forall k :: k in kwargs.Keys ==> k !in named by {
        forall k | k in kwargs.Keys ensures k !in named {
          assert k !in clash;
        }
      }
      None
    else Some(MultipleValues(clash))
  }

  /** A memory built with only its three required fields carries the dataclass defaults. */
  lemma MemoryDefaults(id: string, content: string, t: Timestamp)
    ensures Memory(id, content, t).importance == None
    ensures Memory(id, content, t).metadata == map[]
    ensures Memory(id, content, t) == Memory(id, content, t, None, map[])
  {
  }

  /** A relationship built with only its three required fields has empty metadata. */
  lemma RelationshipDefaults(source: string, target: string, kind: string)
    ensures Relationship(source, target, kind).metadata == map[]
  {
  }
}

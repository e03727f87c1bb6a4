# context-hub memory adapter — a Dafny model

This project models the core of the context-hub plugin, a layer that gives
commands one memory interface over two knowledge-graph backends, Graphiti
and Forgetful. The core has five parts, and each has its own Dafny module:

- **Configuration** (`Config`, `config.dfy`, from `lib/config.py`):
  - finds the project root by walking from the working directory up to `/`;
  - searches for `.context-hub.yaml` in the working directory, then the project root, then home;
  - loads the `memory` section key by key, with defaults;
  - resolves the group id: an explicit value, else the git repository name, else the working directory's name.
  - `PyStr` (`pystr.dfy`) supplies the Python string methods the repository-name parser uses: `strip`, `rstrip`, `replace`, `split`.
- **Graphiti backend** (`Graphiti`, `graphiti.dfy`, from `lib/backends/graphiti.py`):
  - the static operation registry and discovery over it;
  - the placeholder operation bodies;
  - the two parsers from raw service results to records.
- **Backend interface** (`Backends`, `backends.dfy`, from `lib/backends/base.py`): a closed variant type over the two backends, with dispatch functions.
- **Adapter** (`Adapter`, `adapter.dfy`, from `lib/memory_adapter.py`): a class whose configuration, group id and backend are fixed when it is built. Every data operation (query, search_facts, save, explore, list_recent) is forwarded with the group id added; the discovery calls are forwarded unchanged.
- **Bridge** (`Bridge`, `bridge.dfy`, from `lib/bridge.py`):
  - a class holding the process-wide adapter, built on first use;
  - wrapper methods that translate records into plain dictionaries;
  - decoders for those dictionaries, with round-trip lemmas that say exactly what the translation loses.
- **Shared records** (`Models`, `models.dfy`, from `lib/models.py`): the record types and their dataclass defaults. `Wrappers` supplies `Option` and `Result`.

How the environment enters the model:

- The machine is a value: `Config.Env` holds the working directory, the home directory, the set of existing paths, and the outcome of `git config --get remote.origin.url`.
- Reading and YAML-parsing a file is a function parameter, `read`.
- Converting timestamps to and from ISO-8601 text is done by parameters (`iso`, `fromIso`).
- "Now" is a parameter (`now`).
- Python exceptions become `Failure` values carrying a `Models.Error`.

## Model

| member | source | states |
|---|---|---|
| Models.MemoryDefaults | lib/models.py:7-14 | a memory built from id, content and time has no importance and empty metadata |
| Models.RelationshipDefaults | lib/models.py:17-23 | a relationship built from its three required fields has empty metadata |
| Models.BindKeywords | lib/memory_adapter.py:67-78 | `**kwargs` binds exactly when no key names a parameter of the callee; otherwise a multiple-values error naming only clashing keys |
| PyStr.TrimEnd | lib/config.py:114 | the result is a prefix; every removed character satisfies the predicate; the last kept one does not |
| PyStr.TrimStart | lib/config.py:111 | the result is a suffix; every removed character satisfies the predicate; the first kept one does not |
| PyStr.RemoveAll | lib/config.py:114 | deleting occurrences of ".git" never lengthens the text |
| PyStr.Strip | lib/config.py:111 | `strip()`: the result neither starts nor ends with whitespace and is no longer than the input |
| PyStr.StripShape | lib/config.py:111 | `strip()` removes only whitespace, and only at the two ends: the input is whitespace, the result, whitespace |
| PyStr.RStrip | lib/config.py:114 | `rstrip('/')`: the result is a prefix not ending in '/', and every removed character is '/' |
| PyStr.RemoveAllAddsNothing | lib/config.py:114 | deletion adds no characters: one absent from the text is absent from the result |
| PyStr.Split | lib/config.py:114 | `split` returns at least one piece, and no piece contains the separator |
| PyStr.JoinSplit | lib/config.py:114 | joining the pieces of a split gives back the original string |
| PyStr.SplitJoin | lib/config.py:114 | splitting joined separator-free pieces gives back the pieces |
| PyStr.NoSeparator | lib/config.py:114 | a string without the separator splits into itself |
| PyStr.SplitPrefix | lib/config.py:114 | splitting `a + sep + b` with `a` separator-free gives `a` followed by the pieces of `b` |
| PyStr.JoinLast | lib/config.py:114 | a join ends with the separator and the last piece |
| PyStr.LastPiece | lib/config.py:114-116 | the last piece of a split is a suffix, either the whole text or preceded by the separator |
| PyStr.LastPieceAfter | lib/config.py:114-116 | the last piece of splitting `a + sep + b` is `b` when `b` has no separator |
| PyStr.StripUnchanged | lib/config.py:111 | text whose ends are not whitespace is unchanged by `strip` |
| PyStr.RStripUnchanged | lib/config.py:114 | text not ending in '/' is unchanged by `rstrip('/')` |
| PyStr.RemoveAllSkips | lib/config.py:114 | text lacking the pattern's first character passes through `replace` unchanged |
| PyStr.RemoveAllDrops | lib/config.py:114 | an occurrence at the front is deleted |
| PyStr.MatchBeforeSeparator | lib/config.py:114 | an occurrence at the front of `a + '/' + b` lies wholly within `a` |
| PyStr.RemoveAllAround | lib/config.py:114 | no ".git" occurrence straddles a '/', so deletion works on each side separately |
| PyStr.AroundMatch | lib/config.py:114 | the step of that proof where the text starts with an occurrence |
| PyStr.AroundKeep | lib/config.py:114 | the step of that proof where the first character is kept |
| PyStr.AroundEmpty | lib/config.py:114 | a leading separator that the pattern does not contain is kept |
| PyStr.HeadStep | lib/config.py:114 | without an occurrence at the front, deletion keeps the first character and goes on with the rest |
| PyStr.DropStep | lib/config.py:114 | an occurrence at the front is deleted and deletion goes on with the rest |
| PyStr.NoMatchInPrefix | lib/config.py:114 | no occurrence at the front of `a + '/' + b` means none at the front of `a` |
| PyStr.RemoveAllShort | lib/config.py:114 | text shorter than the pattern is unchanged |
| PyStr.TrimStartSkips | lib/config.py:111 | leading characters the predicate holds for are all trimmed |
| PyStr.TrimEndSkips | lib/config.py:111 | trailing characters the predicate holds for are all trimmed |
| PyStr.TrimStartKeepsTail | lib/config.py:111 | once the leading trim reaches a kept character, everything after it is kept |
| PyStr.RStripSkips | lib/config.py:114 | `rstrip(c)` removes every trailing copy of `c` |
| PyStr.StripPadding | lib/config.py:111 | whitespace around the text does not change what `strip()` gives |
| PyStr.StripNewline | lib/config.py:111 | a closing newline does not change what `strip()` gives |
| PyStr.TrimEndKeeps | lib/config.py:111 | text whose last character is kept is unchanged by the trailing trim |
| PyStr.EndsInSlash | lib/config.py:111 | text ending in '/' keeps its end through `strip()`'s trailing trim |
| PyStr.TrimStartKeepsLast | lib/config.py:111 | text not ending in whitespace keeps its last character through the leading trim |
| PyStr.StripKeepsSlashes | lib/config.py:111-114 | `strip()` keeps trailing '/'s after text not ending in whitespace, and that text is not blank |
| Config.DefaultConfig | lib/config.py:11-25 | the defaults are backend "graphiti", group id "auto", the local Graphiti endpoint, and empty Forgetful settings |
| Config.Lineage | lib/config.py:30-33 | the search visits cwd, then each ancestor up to the root, each the previous one minus its last segment |
| Config.HasMarker | lib/config.py:35-36 | a directory is marked exactly when it holds `.git`, `pyproject.toml`, `package.json` or `pom.xml` |
| Config.Name | lib/config.py:122 | `Path.name`: "" for the root, otherwise the segment that, appended to the parent, gives the path back |
| Config.FirstMarked | lib/config.py:33-39 | none is found exactly when no directory has a marker; otherwise the first one that has a marker |
| Config.ProjectRoot | lib/config.py:28-39 | a found root is cwd or one of its ancestors, and holds a marker |
| Config.ProjectRootIsNearest | lib/config.py:28-39 | the root is an ancestor-or-self of cwd with a marker, and no nearer directory has one; none exactly when no directory up to `/` has one |
| Config.FindProjectRoot | lib/config.py:28-39 | the loop returns the nearest marked directory |
| Config.ConfigFile | lib/config.py:42-70 | a found file exists, is named `.context-hub.yaml`, and lies in cwd, home or the project root |
| Config.ConfigFileOrder | lib/config.py:42-70 | the working directory wins, then the project root, then home; none exactly when no place has the file |
| Config.FindConfigFile | lib/config.py:42-70 | the method returns the file of the three-place search |
| Config.MemorySection | lib/config.py:82-85 | a syntax error, a truthy non-mapping document, or a non-mapping memory entry has no section; a falsy document or a missing entry gives the empty section; a mapping entry is the section |
| Config.Truthy | lib/config.py:82 | a YAML value is falsy exactly when it is null, "", 0, false, an empty list or an empty mapping |
| Config.ParseConfig | lib/config.py:81-93 | loading succeeds exactly when the document is falsy or a mapping whose `memory` entry, if present, is a mapping, and `backend` and `group_id`, where present, are strings; otherwise a configuration error |
| Config.BackendSettingsStoredAsWritten | lib/config.py:89-90 | the `graphiti` and `forgetful` settings are stored as written, whatever their type (a null `forgetful:` still loads) |
| Config.PerKeyDefaulting | lib/config.py:85-91 | each key is defaulted on its own: a present key gives its value, an absent key its default |
| Config.EmptyDocumentGivesDefaults | lib/config.py:82-85 | an empty or falsy document, a missing memory section, or an empty one all give the defaults |
| Config.UnknownKeysIgnored | lib/config.py:85-91 | unknown keys, at the top level or in the memory section, do not change the result |
| Config.KnownKeysParse | lib/config.py:86-91 | parsing reads nothing of the section but the four known keys |
| Config.KnownKeys | lib/config.py:86-91 | the restriction keeps exactly the four known keys, with their values |
| Config.LoadedConfig | lib/config.py:73-93 | no file gives the defaults; otherwise the result of parsing the file that was found |
| Config.LoadConfig | lib/config.py:73-93 | the method returns the configuration loaded from the file the search finds |
| Config.RepoNameFromUrl | lib/config.py:111-116 | a name is found exactly when the stripped output is non-blank; the name never contains '/' |
| Config.RepoNameFromStripped | lib/config.py:112-116 | stripped text gives a name exactly when it is non-blank, and the name never contains '/' |
| Config.GitRepoName | lib/config.py:96-124 | when git succeeds, the name parsed from its output; when it fails, the project root's name exactly when the root holds `.git`, else none |
| Config.DetectGroupId | lib/config.py:127-146 | an explicit group id wins; with "auto", a non-empty repository name, else the name of cwd |
| Config.ExplicitGroupIdIgnoresEnvironment | lib/config.py:137-138 | an explicit group id is returned whatever the environment |
| Config.NoVersionControlUsesCwdName | lib/config.py:118-146 | if git fails and there is no `.git` at the project root, the group id is cwd's name |
| Config.GitFailureUsesRootName | lib/config.py:118-122 | if git fails, a project root holding `.git` names the group |
| Config.BlankRemoteFallsToCwd | lib/config.py:111-124 | blank git output gives no name and no `.git` fallback, so the group id is cwd's name |
| Config.RepoNameIsLastSegment | lib/config.py:111-116 | for a remote `host/last`, the name is `last` with each ".git" deleted, whatever the host |
| Config.RepoNameOfParts | lib/config.py:111-116 | a URL unchanged by both strips, whose deletion result is `h/l` with no '/' in `l`, names the repository `l` |
| Config.RepoNameIgnoresWhitespace | lib/config.py:111 | whitespace around git's output, such as its closing newline, does not change the name |
| Config.SameStripSameName | lib/config.py:111-116 | the name depends on git's output only through its stripped form |
| Config.RepoNameIgnoresTrailingSlashes | lib/config.py:111-114 | trailing '/'s after a URL not ending in whitespace do not change the name |
| Config.SameRStripSameName | lib/config.py:111-116 | the name of non-blank output depends only on what `rstrip('/')` leaves of the stripped text |
| Config.NewlineIgnored | lib/config.py:100-111 | the newline git ends its output with does not change the name |
| Config.GitOutputExample | lib/config.py:100-116 | git's output `git@github.com:user/repo.git` plus newline gives "repo" |
| Config.TrailingSlashExample | lib/config.py:111-116 | `https://github.com/user/repo.git/` gives "repo" |
| Config.RemoveGitSuffix | lib/config.py:114 | a dot-free name followed by ".git" loses only the suffix |
| Config.RemoveGitFromRepo | lib/config.py:114 | "repo.git" becomes "repo" |
| Config.ScpRemoteExample | lib/config.py:108-116 | the scp-style remote `git@github.com:user/repo.git` gives "repo" |
| Config.HttpsRemoteExample | lib/config.py:108-116 | the https remote `https://github.com/user/repo.git` gives "repo" |
| Config.RemoveGitTwice | lib/config.py:114 | both ".git"s in `x.gity.git` are deleted, for dot-free `x` and `y` |
| Config.InnerGitSegment | lib/config.py:114-116 | `x.gity.git` is a valid last segment when `x` and `y` hold no '/' |
| Config.RepoNameDeletesInnerGit | lib/config.py:114-116 | ".git" is deleted wherever it occurs: a remote `host/x.gity.git` (e.g. `.../my.github.git`) names the group `x + y` ("myhub") |
| Graphiti.Names | lib/backends/graphiti.py:13-39 | registry names in declaration order |
| Graphiti.InfoNames | lib/backends/graphiti.py:102-107 | the names of a capability list, in order |
| Graphiti.Lookup | lib/backends/graphiti.py:111-114 | the lookup fails exactly for names not in the registry |
| Graphiti.NamesCons | lib/backends/graphiti.py:13-39 | a registry's names are its first name followed by the rest's |
| Graphiti.LookupFirst | lib/backends/graphiti.py:111-114 | a successful lookup gives the entry of the first occurrence of the name |
| Graphiti.Capabilities | lib/backends/graphiti.py:102-107 | one description per registry entry, in registry order, with its name, description, params and example |
| Graphiti.GetSchema | lib/backends/graphiti.py:109-118 | an unknown-operation error exactly for unregistered names; otherwise the entry's description and params |
| Graphiti.GetExamples | lib/backends/graphiti.py:120-125 | the same error condition; otherwise a one-element list with the entry's example |
| Graphiti.DiscoveryAgrees | lib/backends/graphiti.py:102-125 | schema and examples succeed exactly for the listed names, and agree with that listing |
| Graphiti.GraphitiOperationNames | lib/backends/graphiti.py:13-39 | the registry lists query, search_facts, save, explore, list_recent, in that order |
| Graphiti.QuerySchemaExample | lib/backends/graphiti.py:14-18 | the schema of "query" is its description and its two parameter hints |
| Graphiti.ListRecentExamplesExample | lib/backends/graphiti.py:34-38 | the examples of "list_recent" are its single registered example |
| Graphiti.UnknownOperationExample | lib/backends/graphiti.py:109-125 | "delete" is rejected by both get_schema and get_examples |
| Graphiti.Query | lib/backends/graphiti.py:41-54 | the placeholder finds no memories for any input |
| Graphiti.SearchFacts | lib/backends/graphiti.py:56-66 | the placeholder finds no relationships for any input |
| Graphiti.Save | lib/backends/graphiti.py:68-79 | a metadata key `self`, `content` or `group_id` is a multiple-values error naming exactly those keys; otherwise the placeholder id "stub-episode-id" |
| Graphiti.ListRecent | lib/backends/graphiti.py:89-98 | the placeholder finds no memories for any input |
| Graphiti.Explore | lib/backends/graphiti.py:81-87 | nodes come from a query with limit 10 and edges from a fact search with limit 20, both on the starting point |
| Graphiti.ExploreIgnoresDepth | lib/backends/graphiti.py:81-87 | the depth has no effect on the result |
| Graphiti.ParseNodesToMemories | lib/backends/graphiti.py:129-141 | one memory per node, in order, with uuid, name, the creation time (now if absent), no importance, and the summary; fails exactly when some timestamp does not parse, naming the first one |
| Graphiti.ParseFactsToRelationships | lib/backends/graphiti.py:143-155 | one relationship per fact, in order, with source, target, fact text as type, and created_at metadata, each "" when absent |
| Backends.Query | lib/backends/base.py:11-14 | Graphiti finds no memories; Forgetful gives its own answer for the same arguments |
| Backends.SearchFacts | lib/backends/base.py:16-19 | Graphiti finds no relationships; Forgetful gives its own answer for the same arguments |
| Backends.Save | lib/backends/base.py:21-24 | for either backend, fails with a multiple-values error exactly when a metadata key is `self`, `content` or `group_id`; otherwise Graphiti's placeholder id or Forgetful's answer |
| Backends.Explore | lib/backends/base.py:26-29 | Graphiti's graph is empty; Forgetful gives its own answer |
| Backends.ListRecent | lib/backends/base.py:31-34 | Graphiti finds no memories; Forgetful gives its own answer |
| Backends.Registry | lib/backends/base.py:36-51 | Graphiti's registry is its five-operation table; Forgetful's is its own |
| Backends.GetCapabilities | lib/backends/base.py:38-41 | one OperationInfo per registry entry, in order, carrying the entry's name, description, parameter hints and example |
| Backends.GetSchema | lib/backends/base.py:43-46 | succeeds exactly for the registry's names, with the entry's description and parameter hints; otherwise an unknown-operation error |
| Backends.GetExamples | lib/backends/base.py:48-51 | succeeds exactly for the registry's names, with a one-element list of the entry's example; otherwise an unknown-operation error |
| Backends.DiscoveryConsistent | lib/backends/graphiti.py:102-125 | for either backend, schema and examples succeed exactly for the capability names, and fail with an unknown-operation error |
| Adapter.Lower | lib/memory_adapter.py:30 | the lowered name has the same length, each character lowered |
| Adapter.SelectBackend | lib/memory_adapter.py:28-37 | "graphiti" or "forgetful", in any case, selects that backend; any other name fails with an error naming the lowered name |
| Adapter.SelectionExamples | lib/memory_adapter.py:28-37 | "GraphITI" selects Graphiti, "Forgetful" selects Forgetful, "nosuchthing" fails |
| Adapter.ResolvedConfig | lib/memory_adapter.py:24 | a supplied configuration is used as is; without one, the configuration load_config finds |
| Adapter.BuildFailure | lib/memory_adapter.py:24-37 | building fails with the load error when loading fails; otherwise it fails exactly when the lower-cased backend name is neither "graphiti" nor "forgetful", with an unknown-backend error naming it |
| Adapter.SaveOutcome | lib/memory_adapter.py:67-78 | the adapter's save succeeds exactly when no metadata key is `self`, `content` or `group_id`, and then gives the backend's id; a failure names only clashing keys |
| Adapter.UnknownBackendFailsConstruction | lib/memory_adapter.py:24-37 | a configuration naming an unknown backend produces no adapter |
| Adapter.MemoryAdapter.constructor | lib/memory_adapter.py:24-26 | the three attributes hold the given values |
| Adapter.MemoryAdapter.Create | lib/memory_adapter.py:17-37 | succeeds exactly when the configuration resolves and its backend name is known; the adapter holds that configuration, the group id detected from it, and the backend it names; otherwise it reports the first failure |
| Adapter.MemoryAdapter.Query | lib/memory_adapter.py:41-52 | the backend's query with the adapter's group id (default limit 10) |
| Adapter.MemoryAdapter.SearchFacts | lib/memory_adapter.py:54-65 | the backend's fact search with the adapter's group id (default limit 10) |
| Adapter.MemoryAdapter.Save | lib/memory_adapter.py:67-78 | binds the metadata against its own signature, then gives the backend's save with the adapter's group id (its outcome is `Adapter.SaveOutcome`) |
| Adapter.MemoryAdapter.Explore | lib/memory_adapter.py:80-91 | the backend's explore with the adapter's group id (default depth 2) |
| Adapter.MemoryAdapter.ListRecent | lib/memory_adapter.py:93-103 | the backend's recent list with the adapter's group id (default limit 20) |
| Adapter.MemoryAdapter.ListOperations | lib/memory_adapter.py:107-114 | the backend's capabilities |
| Adapter.MemoryAdapter.GetOperationSchema | lib/memory_adapter.py:116-126 | the backend's schema answer, including its unknown-operation error |
| Adapter.MemoryAdapter.GetOperationExamples | lib/memory_adapter.py:128-138 | the backend's examples answer, including its unknown-operation error |
| Bridge.DecodeAllInverse | lib/bridge.py:48-57 | if each element decodes back after encoding, the whole encoded list decodes back |
| Bridge.MemoryFields | lib/bridge.py:49-55 | a memory's dictionary has exactly the keys id, content, created_at, importance, metadata |
| Bridge.NodeFields | lib/bridge.py:108-113 | a node's dictionary has exactly id, content, created_at, metadata, with no importance |
| Bridge.RelationshipFields | lib/bridge.py:117-122 | a relationship's dictionary has exactly source, target, type, metadata |
| Bridge.OperationFields | lib/bridge.py:150-155 | an operation's dictionary has exactly name, description, params, example |
| Bridge.MemoryList | lib/bridge.py:48-57 | one memory dictionary per memory, in order |
| Bridge.RelationshipList | lib/bridge.py:133-141 | one relationship dictionary per relationship, in order |
| Bridge.OperationList | lib/bridge.py:149-157 | one operation dictionary per operation, in order |
| Bridge.ConfigFields | lib/bridge.py:164-168 | exactly the keys backend, group_id, config_file: the given name and id, and "auto-detected" |
| Bridge.GraphFields | lib/bridge.py:106-125 | the graph dictionary has exactly nodes and edges |
| Bridge.WithoutImportance | lib/bridge.py:107-115 | the node list keeps its length and order, each node with its importance cleared and every other field kept |
| Bridge.MemoryRoundTrip | lib/bridge.py:49-55 | a memory dictionary decodes back to the same memory, importance and metadata included |
| Bridge.NodeRoundTrip | lib/bridge.py:108-113 | a node dictionary decodes back to the memory with its importance dropped, and has no importance key |
| Bridge.RelationshipRoundTrip | lib/bridge.py:117-122 | a relationship dictionary decodes back to the same relationship; the relation type travels under "type" |
| Bridge.OperationRoundTrip | lib/bridge.py:150-155 | an operation dictionary decodes back to the same operation |
| Bridge.MemoryListRoundTrip | lib/bridge.py:48-57 | the list from memory_query and memory_list_recent decodes back to the same memories, in order |
| Bridge.RelationshipListRoundTrip | lib/bridge.py:133-141 | the list from memory_search_facts decodes back to the same relationships, in order |
| Bridge.OperationListRoundTrip | lib/bridge.py:149-157 | the list from memory_list_operations decodes back to the same operations, in order |
| Bridge.GraphRoundTrip | lib/bridge.py:106-125 | the graph dictionary decodes back to the same edges and the same nodes minus importance, in order |
| Bridge.Session.constructor | lib/bridge.py:19-20 | the adapter starts unset |
| Bridge.Session.GetAdapter | lib/bridge.py:23-28 | an unset adapter is built in this call's environment, and stays unset, reporting why, exactly when that build fails; a set adapter is returned unchanged |
| Bridge.Session.MemoryQuery | lib/bridge.py:33-57 | the memory dictionaries of the adapter's query (default limit 10) |
| Bridge.Session.MemorySave | lib/bridge.py:60-72 | a `content` keyword fails before any adapter is built; otherwise the adapter is acquired and the result is the adapter's save outcome |
| Bridge.Session.MemoryListRecent | lib/bridge.py:75-89 | the memory dictionaries of the adapter's recent list (default limit 20) |
| Bridge.Session.MemoryExplore | lib/bridge.py:92-125 | the graph dictionary of the adapter's explore (default depth 2) |
| Bridge.Session.MemorySearchFacts | lib/bridge.py:128-141 | the relationship dictionaries of the adapter's fact search (default limit 10) |
| Bridge.Session.MemoryListOperations | lib/bridge.py:144-157 | the operation dictionaries of the active backend's capabilities |
| Bridge.Session.MemoryGetConfig | lib/bridge.py:160-168 | the adapter's configured backend name and group id, fixed when it was built, and the fixed "auto-detected" file entry |

## Left out

- Filesystem, subprocess and YAML:
  - File existence is membership in `Env.fs`.
  - Running `git` is the fixed outcome `Env.git`.
  - Reading plus YAML parsing of a file is the parameter `read`.
  - The YAML grammar itself is not modelled.
- Config.ParseConfig: a `backend` or `group_id` value that is not a string is a configuration error here, so the model refuses configurations Python runs with:
  - a non-string `group_id` (for example `123`) is returned unchanged by `detect_group_id` (lib/config.py:137-138) and used as the group id;
  - a non-string `backend` fails only later, at `.lower()` during adapter construction (lib/memory_adapter.py:30), with an `AttributeError` rather than a configuration error.
  - The `graphiti` and `forgetful` settings are stored whatever their type, as in the source.
- Adapter.Lower: lowers ASCII letters only. Python's `str.lower()` also maps non-ASCII letters, and the Kelvin sign lowers to "k".
- Graphiti.ParseNodesToMemories:
  - Raw node and fact records are string-valued maps; other JSON value types are not modelled.
  - One `now` value stands for every `datetime.now()` call in the loop.
- The Forgetful backend has no implementation in the modelled source:
  - `lib/memory_adapter.py:4` imports `ForgetfulBackend` from `lib/backends`, but `lib/backends/__init__.py:2-5` neither defines nor exports it, so importing the adapter, and with it the bridge, raises `ImportError`. The model sets that `ImportError` aside: `Adapter.MemoryAdapter.Create` and `Bridge.Session.GetAdapter` can succeed.
  - Its operations and registry are supplied as a `Backends.ForgetfulImpl` value, and are assumed never to raise.
  - Its discovery is assumed to follow the same registry rules as Graphiti's.
  - Its save is assumed to have the interface's signature (`self`, `content`, `group_id`, `**metadata`), so the same keywords clash.
- The Graphiti operation bodies are placeholders in the source. The remote service calls in their comments are not modelled.
- Adapter.MemoryAdapter.Create detects the group id before selecting the backend, as the source does. When selection then fails, that detection has no observable effect, because the git outcome is a fixed value rather than a subprocess.
- Save's keyword arguments (`**metadata`) are one metadata map. A clash gives `Models.MultipleValues` carrying every clashing key, where Python's `TypeError` message names only one of them.
- Bridge.Session: each wrapper call is given the environment (`env`, `read`) that `get_adapter` would read at that moment. Once the adapter is set, later environments are not read, as in the source.
- The `iso` and `fromIso` timestamp conversions are parameters. The round trips assume `fromIso` undoes `iso`.
- Config.RepoNameFromUrl deletes every ".git" in the URL, as the code's `replace` does, not only a trailing suffix: `my.github.git` yields "myhub".
- Not modelled: `sys.path` manipulation in `lib/bridge.py`, the package re-export files, the example scripts, and the live test.

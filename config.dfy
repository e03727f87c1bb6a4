/**
 * Configuration discovery and identity resolution (lib/config.py).
 *
 * The filesystem is a set of existing absolute paths, a path is its sequence
 * of segments below "/" (so `[]` is the root), and the `git config --get
 * remote.origin.url` subprocess is an outcome given with the environment.
 */
module Config {
  import opened Wrappers
  import opened Models
  import PyStr

  type Path = seq<string>

  /** Everything configuration resolution reads from the process and the machine. */
  datatype Env = Env(cwd: Path, home: Path, fs: set<Path>, git: GitOutcome)

  /** The outcome of `git config --get remote.origin.url`: its standard output, or
      a failure (non-zero exit status, or no `git` executable). */
  datatype GitOutcome = GitSucceeded(stdout: string) | GitFailed

  /** What reading and YAML-parsing one file gives: the document (an empty file
      is `Null`), or a syntax error. */
  datatype Parsed = Document(doc: Value) | SyntaxError

  const CONFIG_FILE_NAME := ".context-hub.yaml"
  const PROJECT_MARKERS: seq<string> := [".git", "pyproject.toml", "package.json", "pom.xml"]
  const GIT_DIR := ".git"
  const DEFAULT_BACKEND := "graphiti"
  const AUTO := "auto"
  const DEFAULT_GRAPHITI: map<string, Value> := map["endpoint" := Str("http://localhost:8000/mcp")]
  const DEFAULT_FORGETFUL: map<string, Value> := map[]

  /** The memory section of the configuration, with the dataclass defaults. */
  datatype MemoryConfig = MemoryConfig(
    backend: string := DEFAULT_BACKEND,
    groupId: string := AUTO,
    graphiti: Value := Dict(DEFAULT_GRAPHITI),
    forgetful: Value := Dict(DEFAULT_FORGETFUL))

  /** The root configuration. */
  datatype Config = Config(memory: MemoryConfig := MemoryConfig())

  /** The configuration used when no file is found. */
  function DefaultConfig(): (c: Config)
    ensures c.memory.backend == "graphiti" && c.memory.groupId == "auto"
    ensures c.memory.graphiti == Dict(map["endpoint" := Str("http://localhost:8000/mcp")])
    ensures c.memory.forgetful == Dict(map[])
  {
    Config()
  }

  /** Python's `Path.name`: the last segment, and "" for the root. */
  function Name(p: Path): (r: string)
    ensures p == [] ==> r == ""
    ensures p != [] ==> p == p[..|p| - 1] + [r]
  {
    if p == [] then "" else p[|p| - 1]
  }

  // ---------------------------------------------------------------------------
  // find_project_root
  // ---------------------------------------------------------------------------

  /** `[cwd] + list(cwd.parents)`: the directory itself, then each ancestor up to
      the root, nearest first. */
  function Lineage(cwd: Path): (r: seq<Path>)
    ensures |r| == |cwd| + 1
    ensures r[0] == cwd && r[|cwd|] == []
    ensures forall i :: 0 <= i < |r| ==> r[i] <= cwd && |r[i]| == |cwd| - i
    ensures forall i :: 0 <= i < |cwd| ==> r[i + 1] == r[i][..|r[i]| - 1]
  {
    seq(|cwd| + 1, i requires 0 <= i <= |cwd| => cwd[..|cwd| - i])
  }

  /** Some project marker exists directly inside `dir`. */
  predicate HasMarker(fs: set<Path>, dir: Path): (r: bool)
    ensures r <==> dir + [".git"] in fs || dir + ["pyproject.toml"] in fs ||
                   dir + ["package.json"] in fs || dir + ["pom.xml"] in fs
  {
    assert PROJECT_MARKERS[0] == ".git" && PROJECT_MARKERS[1] == "pyproject.toml";
    assert PROJECT_MARKERS[2] == "package.json" && PROJECT_MARKERS[3] == "pom.xml";
    exists i :: 0 <= i < |PROJECT_MARKERS| && dir + [PROJECT_MARKERS[i]] in fs
  }

  /** The first of `dirs` that holds a project marker. */
  function FirstMarked(fs: set<Path>, dirs: seq<Path>): (r: Option<Path>)
    ensures r.None? <==> forall i :: 0 <= i < |dirs| ==> !HasMarker(fs, dirs[i])
    ensures r.Some? ==> exists i :: 0 <= i < |dirs| && dirs[i] == r.value && HasMarker(fs, dirs[i]) &&
                                    forall j :: 0 <= j < i ==> !HasMarker(fs, dirs[j])
  {
    if dirs == [] then None
    else if HasMarker(fs, dirs[0]) then Some(dirs[0])
    else
      var r := FirstMarked(fs, dirs[1..]);
      assert forall i :: 1 <= i < |dirs| ==> dirs[i] == dirs[1..][i - 1];
      r
  }

  /** The project root: the nearest of cwd and its ancestors holding a marker. */
  function ProjectRoot(env: Env): (r: Option<Path>)
    ensures r.Some? ==> r.value <= env.cwd && HasMarker(env.fs, r.value)
  {
    FirstMarked(env.fs, Lineage(env.cwd))
  }

  /** The project root is an ancestor-or-self of cwd holding a marker, and no
      nearer directory holds one; there is none exactly when no directory on
      the way up to "/" holds a marker. */
  lemma ProjectRootIsNearest(env: Env)
    ensures ProjectRoot(env).None? <==>
      forall k :: 0 <= k <= |env.cwd| ==> !HasMarker(env.fs, env.cwd[..k])
    ensures ProjectRoot(env).Some? ==>
      var root := ProjectRoot(env).value;
      root <= env.cwd && HasMarker(env.fs, root) &&
      forall k :: |root| < k <= |env.cwd| ==> !HasMarker(env.fs, env.cwd[..k])
  {
    var dirs := Lineage(env.cwd);
    forall k | 0 <= k <= |env.cwd|
      ensures env.cwd[..k] == dirs[|env.cwd| - k]
    {
    }
  }

  /** find_project_root: walks `[cwd] + parents` and returns the first directory
      holding a marker. */
  method FindProjectRoot(env: Env) returns (r: Option<Path>)
    ensures r == ProjectRoot(env)
  {
    var dirs := Lineage(env.cwd);
    for i := 0 to |dirs|
      invariant FirstMarked(env.fs, dirs[i..]) == FirstMarked(env.fs, dirs)
    {
      if HasMarker(env.fs, dirs[i]) {
        return Some(dirs[i]);
      }
      assert dirs[i..][1..] == dirs[i + 1..];
    }
    return None;
  }

  // ---------------------------------------------------------------------------
  // find_config_file, load_config
  // ---------------------------------------------------------------------------

  /** The configuration file chosen by the three-place search, first match wins. */
  function ConfigFile(env: Env): (r: Option<Path>)
    ensures r.Some? ==> r.value in env.fs && Name(r.value) == CONFIG_FILE_NAME
    ensures r.Some? ==> r.value == env.cwd + [CONFIG_FILE_NAME] || r.value == env.home + [CONFIG_FILE_NAME] ||
                        (ProjectRoot(env).Some? && r.value == ProjectRoot(env).value + [CONFIG_FILE_NAME])
  {
    var inCwd := env.cwd + [CONFIG_FILE_NAME];
    var inHome := env.home + [CONFIG_FILE_NAME];
    if inCwd in env.fs then Some(inCwd)
    else if ProjectRoot(env).Some? && ProjectRoot(env).value + [CONFIG_FILE_NAME] in env.fs
    then Some(ProjectRoot(env).value + [CONFIG_FILE_NAME])
    else if inHome in env.fs then Some(inHome)
    else None
  }

  /** The search order, stated place by place: the file in cwd wins; the one at
      the project root is taken when cwd has none; the one in home when neither
      earlier place has one; and nothing is found exactly when no place has it. */
  lemma ConfigFileOrder(env: Env)
    ensures env.cwd + [CONFIG_FILE_NAME] in env.fs ==>
      ConfigFile(env) == Some(env.cwd + [CONFIG_FILE_NAME])
    ensures (env.cwd + [CONFIG_FILE_NAME] !in env.fs && ProjectRoot(env).Some? &&
             ProjectRoot(env).value + [CONFIG_FILE_NAME] in env.fs) ==>
      ConfigFile(env) == Some(ProjectRoot(env).value + [CONFIG_FILE_NAME])
    ensures (env.cwd + [CONFIG_FILE_NAME] !in env.fs &&
             (ProjectRoot(env).None? || ProjectRoot(env).value + [CONFIG_FILE_NAME] !in env.fs) &&
             env.home + [CONFIG_FILE_NAME] in env.fs) ==>
      ConfigFile(env) == Some(env.home + [CONFIG_FILE_NAME])
    ensures ConfigFile(env).None? <==>
      (env.cwd + [CONFIG_FILE_NAME] !in env.fs && env.home + [CONFIG_FILE_NAME] !in env.fs &&
       (ProjectRoot(env).None? || ProjectRoot(env).value + [CONFIG_FILE_NAME] !in env.fs))
  {
  }

  /** find_config_file: cwd, then the project root, then home. */
  method FindConfigFile(env: Env) returns (r: Option<Path>)
    ensures r == ConfigFile(env)
  {
    var cwdConfig := env.cwd + [CONFIG_FILE_NAME];
    if cwdConfig in env.fs {
      return Some(cwdConfig);
    }
    var projectRoot := FindProjectRoot(env);
    if projectRoot.Some? {
      var rootConfig := projectRoot.value + [CONFIG_FILE_NAME];
      if rootConfig in env.fs {
        return Some(rootConfig);
      }
    }
    var homeConfig := env.home + [CONFIG_FILE_NAME];
    if homeConfig in env.fs {
      return Some(homeConfig);
    }
    return None;
  }

  /** Python truthiness of a YAML value. */
  predicate Truthy(v: Value): (r: bool)
    ensures !r <==> v in {Null, Str(""), Int(0), Bool(false), List([]), Dict(map[])}
  {
    match v
    case Null => false
    case Str(s) => s != ""
    case Int(i) => i != 0
    case Bool(b) => b
    case List(items) => items != []
    case Dict(entries) => entries != map[]
  }

  /** `m.get(key, default)` where the value must be a string. */
  function TextOr(m: map<string, Value>, key: string, default: string): Option<string> {
    if key !in m then Some(default)
    else if m[key].Str? then Some(m[key].s)
    else None
  }

  /** `m.get(key, default)` for a setting stored whatever its type. */
  function ValueOr(m: map<string, Value>, key: string, default: Value): Value {
    if key in m then m[key] else default
  }

  /** The `memory` section of a parsed document: `(data or {}).get('memory', {})`,
      when the document and the section are mappings. */
  function MemorySection(p: Parsed): (r: Option<map<string, Value>>)
    ensures p.SyntaxError? ==> r.None?
    ensures p.Document? && !Truthy(p.doc) ==> r == Some(map[])
    ensures p.Document? && Truthy(p.doc) && !p.doc.Dict? ==> r.None?
    ensures p.Document? && p.doc.Dict? && "memory" !in p.doc.entries ==> r == Some(map[])
    ensures p.Document? && p.doc.Dict? && "memory" in p.doc.entries ==>
      (r.Some? <==> p.doc.entries["memory"].Dict?) &&
      (r.Some? ==> r.value == p.doc.entries["memory"].entries)
  {
    match p
    case SyntaxError => None
    case Document(doc) =>
      var data := if Truthy(doc) then doc else Dict(map[]);
      if !data.Dict? then None
      else
        var section := if "memory" in data.entries then data.entries["memory"] else Dict(map[]);
        if section.Dict? then Some(section.entries) else None
  }

  /** The two string settings of a memory section, where present, are strings.
      The per-backend settings are stored whatever their type. */
  predicate WellTyped(m: map<string, Value>) {
    && ("backend" in m ==> m["backend"].Str?)
    && ("group_id" in m ==> m["group_id"].Str?)
  }

  /** The keyed defaulting of load_config applied to one parsed file. */
  function ParseConfig(p: Parsed): (r: Result<Config, Error>)
    ensures r.Success? <==> MemorySection(p).Some? && WellTyped(MemorySection(p).value)
    ensures r.Failure? ==> r.error.MalformedConfig?
  {
    match MemorySection(p)
    case None => Failure(MalformedConfig("the document or its memory section is not a mapping"))
    case Some(m) =>
      var backend := TextOr(m, "backend", DEFAULT_BACKEND);
      var groupId := TextOr(m, "group_id", AUTO);
      var graphiti := ValueOr(m, "graphiti", Dict(DEFAULT_GRAPHITI));
      var forgetful := ValueOr(m, "forgetful", Dict(DEFAULT_FORGETFUL));
      if backend.Some? && groupId.Some?
      then Success(Config(MemoryConfig(backend.value, groupId.value, graphiti, forgetful)))
      else Failure(MalformedConfig("a memory setting has the wrong type"))
  }

  /** Each key is defaulted on its own: a present key gives its value, an absent
      one its default, whatever the other keys hold. */
  lemma PerKeyDefaulting(p: Parsed)
    requires MemorySection(p).Some? && WellTyped(MemorySection(p).value)
    ensures var m := MemorySection(p).value; var c := ParseConfig(p).value.memory;
      && c.backend == (if "backend" in m then m["backend"].s else "graphiti")
      && c.groupId == (if "group_id" in m then m["group_id"].s else "auto")
      && c.graphiti == (if "graphiti" in m then m["graphiti"]
                        else Dict(map["endpoint" := Str("http://localhost:8000/mcp")]))
      && c.forgetful == (if "forgetful" in m then m["forgetful"] else Dict(map[]))
  {
  }

  /** The per-backend settings are stored whatever they hold: an empty
      `forgetful:` entry (YAML null) or a list under `graphiti` still loads,
      with the value kept as written. */
  lemma BackendSettingsStoredAsWritten(graphiti: Value, forgetful: Value)
    ensures var p := Document(Dict(map["memory" := Dict(map["graphiti" := graphiti, "forgetful" := forgetful])]));
      && ParseConfig(p).Success?
      && ParseConfig(p).value.memory.graphiti == graphiti
      && ParseConfig(p).value.memory.forgetful == forgetful
      && ParseConfig(p).value.memory.backend == "graphiti"
  {
    var m := map["graphiti" := graphiti, "forgetful" := forgetful];
    assert "backend" !in m && "group_id" !in m;
    assert MemorySection(Document(Dict(map["memory" := Dict(m)]))) == Some(m);
  }

  /** An empty file, an empty or falsy document, a document without a memory
      section and an empty memory section all give the defaults. */
  lemma EmptyDocumentGivesDefaults(doc: Value)
    requires !Truthy(doc) || (doc.Dict? && "memory" !in doc.entries) ||
             (doc.Dict? && "memory" in doc.entries && doc.entries["memory"] == Dict(map[]))
    ensures ParseConfig(Document(doc)) == Success(DefaultConfig())
  {
  }

  /** Keys load_config does not know, at the top level or in the memory section,
      change nothing. */
  lemma UnknownKeysIgnored(top: map<string, Value>, m: map<string, Value>)
    ensures ParseConfig(Document(Dict(top["memory" := Dict(m)]))) ==
            ParseConfig(Document(Dict(map["memory" := Dict(KnownKeys(m))])))
  {
    var km := KnownKeys(m);
    assert map[]["memory" := Dict(km)] == map["memory" := Dict(km)];
    KnownKeysParse(Document(Dict(top["memory" := Dict(m)])), Document(Dict(map["memory" := Dict(km)])), m);
  }

  /** Parsing reads nothing of the section but the four known keys. */
  lemma KnownKeysParse(p: Parsed, q: Parsed, m: map<string, Value>)
    requires MemorySection(p) == Some(m) && MemorySection(q) == Some(KnownKeys(m))
    ensures ParseConfig(p) == ParseConfig(q)
  {
    var km := KnownKeys(m);
    assert TextOr(m, "backend", DEFAULT_BACKEND) == TextOr(km, "backend", DEFAULT_BACKEND);
    assert TextOr(m, "group_id", AUTO) == TextOr(km, "group_id", AUTO);
    assert ValueOr(m, "graphiti", Dict(DEFAULT_GRAPHITI)) == ValueOr(km, "graphiti", Dict(DEFAULT_GRAPHITI));
    assert ValueOr(m, "forgetful", Dict(DEFAULT_FORGETFUL)) == ValueOr(km, "forgetful", Dict(DEFAULT_FORGETFUL));
  }

  /** The memory section restricted to the four keys load_config reads. */
  function KnownKeys(m: map<string, Value>): (r: map<string, Value>)
    ensures r.Keys <= {"backend", "group_id", "graphiti", "forgetful"}
    ensures forall k :: k in r ==> k in m && r[k] == m[k]
    ensures forall k :: k in m && k in {"backend", "group_id", "graphiti", "forgetful"} ==> k in r
  {
    map k | k in m && k in {"backend", "group_id", "graphiti", "forgetful"} :: m[k]
  }

  /** What load_config returns in an environment, reading files through `read`. */
  function LoadedConfig(env: Env, read: Path -> Parsed): (r: Result<Config, Error>)
    ensures ConfigFile(env).None? ==> r == Success(DefaultConfig())
    ensures ConfigFile(env).Some? ==> r == ParseConfig(read(ConfigFile(env).value))
  {
    match ConfigFile(env)
    case None => Success(Config())
    case Some(file) => ParseConfig(read(file))
  }

  /** load_config: the defaults when no file is found, else the keyed defaulting
      of the first file the search finds. */
  method LoadConfig(env: Env, read: Path -> Parsed) returns (r: Result<Config, Error>)
    ensures r == LoadedConfig(env, read)
  {
    var configFile := FindConfigFile(env);
    if configFile.None? {
      return Success(Config());
    }
    var data := read(configFile.value);
    return ParseConfig(data);
  }

  // ---------------------------------------------------------------------------
  // get_git_repo_name, detect_group_id
  // ---------------------------------------------------------------------------

  /** The repository name parsed from `git config` output: strip whitespace,
      strip trailing '/', delete every ".git", split on '/', take the last piece.
      Output that is blank after stripping gives no name. */
  function RepoNameFromUrl(stdout: string): (r: Option<string>)
    ensures r.Some? <==> PyStr.Strip(stdout) != ""
    ensures r.Some? ==> '/' !in r.value
  {
    RepoNameFromStripped(PyStr.Strip(stdout))
  }

  /** The part of the parse after `strip()`: blank text gives no name; otherwise
      the last '/'-piece of the text with trailing '/'s and every ".git" removed. */
  function RepoNameFromStripped(url: string): (r: Option<string>)
    ensures r.Some? <==> url != ""
    ensures r.Some? ==> '/' !in r.value
  {
    if url == "" then None
    else
      // `split` never returns an empty list, so the `if parts:` guard always holds.
      var parts := PyStr.Split(PyStr.RemoveAll(PyStr.RStrip(url, '/'), ".git"), '/');
      Some(parts[|parts| - 1])
  }

  /** get_git_repo_name: the name from the remote URL when git succeeds; when it
      fails, the project root's name if the root holds `.git`. */
  function GitRepoName(env: Env): (r: Option<string>)
    ensures env.git.GitSucceeded? ==> r == RepoNameFromUrl(env.git.stdout)
    ensures env.git.GitFailed? ==>
      (r.Some? <==> ProjectRoot(env).Some? && ProjectRoot(env).value + [GIT_DIR] in env.fs)
    ensures env.git.GitFailed? && r.Some? ==> r.value == Name(ProjectRoot(env).value)
  {
    match env.git
    case GitSucceeded(stdout) => RepoNameFromUrl(stdout)
    case GitFailed =>
      var root := ProjectRoot(env);
      if root.Some? && root.value + [GIT_DIR] in env.fs then Some(Name(root.value)) else None
  }

  /** detect_group_id: an explicit group id wins; with "auto", a non-empty git name,
      else the name of cwd. */
  function DetectGroupId(config: Config, env: Env): (r: string)
    ensures config.memory.groupId != AUTO ==> r == config.memory.groupId
    ensures config.memory.groupId == AUTO && GitRepoName(env).Some? && GitRepoName(env).value != "" ==>
      r == GitRepoName(env).value
    ensures config.memory.groupId == AUTO && (GitRepoName(env).None? || GitRepoName(env) == Some("")) ==>
      r == Name(env.cwd)
  {
    if config.memory.groupId != AUTO then config.memory.groupId
    else
      var gitName := GitRepoName(env);
      if gitName.Some? && gitName.value != "" then gitName.value
      else Name(env.cwd)
  }

  /** An explicit group id is returned whatever the filesystem and git say. */
  lemma ExplicitGroupIdIgnoresEnvironment(config: Config, env1: Env, env2: Env)
    requires config.memory.groupId != AUTO
    ensures DetectGroupId(config, env1) == DetectGroupId(config, env2) == config.memory.groupId
  {
  }

  /** With "auto" and no version-control context at all (git fails and the project
      root, if any, has no `.git`), the group id is cwd's name. */
  lemma NoVersionControlUsesCwdName(config: Config, env: Env)
    requires config.memory.groupId == AUTO && env.git == GitFailed
    requires ProjectRoot(env).None? || ProjectRoot(env).value + [GIT_DIR] !in env.fs
    ensures DetectGroupId(config, env) == Name(env.cwd)
  {
  }

  /** When git fails, a project root holding `.git` names the group. */
  lemma GitFailureUsesRootName(config: Config, env: Env)
    requires config.memory.groupId == AUTO && env.git == GitFailed
    requires ProjectRoot(env).Some? && ProjectRoot(env).value + [GIT_DIR] in env.fs
    requires Name(ProjectRoot(env).value) != ""
    ensures DetectGroupId(config, env) == Name(ProjectRoot(env).value)
  {
  }

  /** A successful git command with blank output gives no name, and there is no
      fallback to the `.git` directory: the group id is cwd's name. */
  lemma BlankRemoteFallsToCwd(config: Config, env: Env)
    requires config.memory.groupId == AUTO
    requires env.git.GitSucceeded? && PyStr.Strip(env.git.stdout) == ""
    ensures GitRepoName(env) == None
    ensures DetectGroupId(config, env) == Name(env.cwd)
  {
  }

  /** For a remote `host/last`, the name is the last path segment with every
      ".git" in it deleted, whatever the host part holds. */
  lemma RepoNameIsLastSegment(host: string, last: string)
    requires host != [] && !PyStr.IsSpace(host[0])
    requires last != [] && !PyStr.IsSpace(last[|last| - 1]) && '/' !in last
    ensures RepoNameFromUrl(host + "/" + last) == Some(PyStr.RemoveAll(last, ".git"))
  {
    var s := host + "/" + last;
    UrlEnds(host, last);
    PyStr.StripUnchanged(s);
    PyStr.RStripUnchanged(s, '/');
    PyStr.RemoveAllAround(host, '/', last, ".git");
    PyStr.RemoveAllAddsNothing(last, ".git", '/');
    RepoNameOfParts(s, PyStr.RemoveAll(host, ".git"), PyStr.RemoveAll(last, ".git"));
  }

  /** The ends of `host/last` are the ends of its parts. */
  lemma UrlEnds(host: string, last: string)
    requires host != [] && last != []
    ensures var s := host + "/" + last;
      s == host + ['/'] + last && s[0] == host[0] && s[|s| - 1] == last[|last| - 1]
  {
  }

  /** A URL left alone by both strips, whose ".git" deletion is `h/l` with no
      '/' in `l`, names the repository `l`. */
  lemma RepoNameOfParts(url: string, h: string, l: string)
    requires url != "" && PyStr.Strip(url) == url && PyStr.RStrip(url, '/') == url
    requires PyStr.RemoveAll(url, ".git") == h + ['/'] + l && '/' !in l
    ensures RepoNameFromUrl(url) == Some(l)
  {
    PyStr.LastPieceAfter(h, l, '/');
  }

  /** Whitespace around git's output, such as the newline it ends with, does
      not change the name. */
  lemma RepoNameIgnoresWhitespace(ws: string, url: string, ws2: string)
    requires forall i :: 0 <= i < |ws| ==> PyStr.IsSpace(ws[i])
    requires forall i :: 0 <= i < |ws2| ==> PyStr.IsSpace(ws2[i])
    ensures RepoNameFromUrl(ws + url + ws2) == RepoNameFromUrl(url)
  {
    PyStr.StripPadding(ws, url, ws2);
    SameStripSameName(ws + url + ws2, url);
  }

  /** The name depends on git's output only through its stripped form. */
  lemma SameStripSameName(a: string, b: string)
    requires PyStr.Strip(a) == PyStr.Strip(b)
    ensures RepoNameFromUrl(a) == RepoNameFromUrl(b)
  {
  }

  /** Trailing '/'s after a URL that does not end in whitespace do not change
      the name. */
  lemma RepoNameIgnoresTrailingSlashes(url: string, slashes: string)
    requires url != [] && !PyStr.IsSpace(url[|url| - 1])
    requires forall i :: 0 <= i < |slashes| ==> slashes[i] == '/'
    ensures RepoNameFromUrl(url + slashes) == RepoNameFromUrl(url)
  {
    PyStr.StripKeepsSlashes(url, slashes);
    PyStr.RStripSkips(PyStr.Strip(url), slashes, '/');
    SameRStripSameName(url + slashes, url);
  }

  /** The name depends on a non-blank stripped output only through what
      `rstrip('/')` leaves of it. */
  lemma SameRStripSameName(a: string, b: string)
    requires PyStr.Strip(a) != "" && PyStr.Strip(b) != ""
    requires PyStr.RStrip(PyStr.Strip(a), '/') == PyStr.RStrip(PyStr.Strip(b), '/')
    ensures RepoNameFromUrl(a) == RepoNameFromUrl(b)
  {
  }

  /** git's actual output for the scp-style remote, with its newline, gives "repo". */
  lemma GitOutputExample()
    ensures RepoNameFromUrl("git@github.com:user" + "/" + "repo.git" + "\n") == Some("repo")
  {
    NewlineIgnored("git@github.com:user" + "/" + "repo.git");
    ScpRemoteExample();
  }

  /** The newline git ends its output with does not change the name. */
  lemma NewlineIgnored(url: string)
    ensures RepoNameFromUrl(url + "\n") == RepoNameFromUrl(url)
  {
    PyStr.StripNewline(url);
    SameStripSameName(url + "\n", url);
  }

  /** A remote written with a trailing '/' gives the same name, "repo". */
  lemma TrailingSlashExample()
    ensures RepoNameFromUrl("https://github.com/user" + "/" + "repo.git" + "/") == Some("repo")
  {
    var url := "https://github.com/user" + "/" + "repo.git";
    assert url[|url| - 1] == 't';
    RepoNameIgnoresTrailingSlashes(url, "/");
    HttpsRemoteExample();
  }

  /** A ".git" suffix after text without '.' is deleted and the text kept. */
  lemma RemoveGitSuffix(x: string)
    requires '.' !in x
    ensures PyStr.RemoveAll(x + ".git", ".git") == x
  {
    PyStr.RemoveAllSkips(x, ".git", ".git");
    PyStr.RemoveAllDrops(".git", "");
    assert ".git" + "" == ".git";
  }

  /** Deleting ".git" from the last segment "repo.git". */
  lemma RemoveGitFromRepo()
    ensures PyStr.RemoveAll("repo.git", ".git") == "repo"
  {
    RemoveGitSuffix("repo");
    assert "repo" + ".git" == "repo.git";
  }

  /** The scp-style remote `git@github.com:user/repo.git` gives "repo". */
  lemma ScpRemoteExample()
    ensures RepoNameFromUrl("git@github.com:user" + "/" + "repo.git") == Some("repo")
  {
    RepoNameIsLastSegment("git@github.com:user", "repo.git");
    RemoveGitFromRepo();
  }

  /** The https remote `https://github.com/user/repo.git` gives "repo". */
  lemma HttpsRemoteExample()
    ensures RepoNameFromUrl("https://github.com/user" + "/" + "repo.git") == Some("repo")
  {
    RepoNameIsLastSegment("https://github.com/user", "repo.git");
    RemoveGitFromRepo();
  }

  /** Both occurrences of ".git" in `x.gity.git` are deleted, for dot-free
      `x` and `y`. */
  lemma RemoveGitTwice(x: string, y: string)
    requires '.' !in x && '.' !in y
    ensures PyStr.RemoveAll(x + ".git" + y + ".git", ".git") == x + y
  {
    assert x + ".git" + y + ".git" == x + (".git" + (y + ".git"));
    PyStr.RemoveAllSkips(x, ".git" + (y + ".git"), ".git");
    PyStr.RemoveAllDrops(".git", y + ".git");
    RemoveGitSuffix(y);
  }

  /** `x.gity.git` is a valid last segment when `x` and `y` hold no '/'. */
  lemma InnerGitSegment(x: string, y: string)
    requires '/' !in x && '/' !in y
    ensures var last := x + ".git" + y + ".git";
      last != [] && !PyStr.IsSpace(last[|last| - 1]) && '/' !in last
  {
    var last := x + ".git" + y + ".git";
    assert last[|last| - 1] == 't';
    forall i | 0 <= i < |last|
      ensures last[i] != '/'
    {
      if i < |x| {
        assert last[i] == x[i];
      } else if i < |x| + 4 {
        assert last[i] == ".git"[i - |x|];
      } else if i < |x| + 4 + |y| {
        assert last[i] == y[i - |x| - 4];
      } else {
        assert last[i] == ".git"[i - |x| - 4 - |y|];
      }
    }
  }

  /** ".git" is deleted wherever it occurs, not only as a suffix: a remote
      `host/x.gity.git` (for instance `.../my.github.git`) names the group
      `x + y` ("myhub"). */
  lemma RepoNameDeletesInnerGit(host: string, x: string, y: string)
    requires host != [] && !PyStr.IsSpace(host[0])
    requires '.' !in x && '/' !in x && '.' !in y && '/' !in y
    ensures RepoNameFromUrl(host + "/" + (x + ".git" + y + ".git")) == Some(x + y)
  {
    InnerGitSegment(x, y);
    RepoNameIsLastSegment(host, x + ".git" + y + ".git");
    RemoveGitTwice(x, y);
  }
}

/**
 * Path resolution: where a platform's agents directory, an agent's file and the
 * protocol file live for an installation location, and which agents a listing
 * of the agents directory shows as installed. A path is a sequence of segments;
 * the home directory and the working directory are parameters.
 */
module AgentPaths {
  import opened Results
  import opened Strings
  import opened Platforms
  import opened AgentNames

  type Path = seq<string>

  /** The base of an installation: the home directory for `'global'`, the working directory for any other value. */
  function BaseDir(location: string, home: Path, cwd: Path): Path {
    if location == "global" then home else cwd
  }

  /**
   * Why a platform id yields no path: `getPlatformConfig` threw its
   * unsupported-platform error, or it returned a member inherited from
   * `Object.prototype`, which has no path fields, so calling `split` on the
   * missing field throws a `TypeError`.
   */
  datatype LookupError = Unsupported(message: string) | NoPathField(platformId: string)

  /** The text of the error; for the `TypeError` it is the wording of Node.js's V8 engine. */
  function LookupErrorMessage(e: LookupError): string {
    match e
    case Unsupported(message) => message
    case NoPathField(_) => "Cannot read properties of undefined " + "(reading 'split')"
  }

  /** `getTargetPath`: the platform's agents directory under the location's base. */
  function GetTargetPath(location: string, platformId: string, home: Path, cwd: Path): (r: Result<Path, LookupError>)
    ensures r.Ok? <==> IsValidPlatform(platformId)
    ensures r.Err? && platformId in InheritedKeys ==> r.error == NoPathField(platformId)
    ensures r.Err? && platformId !in InheritedKeys ==> r.error == Unsupported(UnsupportedMessage(platformId))
    ensures r.Ok? ==> r.value == BaseDir(location, home, cwd) + [PlatformTable[platformId].directory, "agents"]
  {
    match GetPlatformConfigAsWritten(platformId)
    case Err(message) => Err(Unsupported(message))
    case Ok(None) => Err(NoPathField(platformId))
    case Ok(Some(config)) =>
      AllEntriesFollowLayout();
      assert config == PlatformTable[platformId];
      LayoutSegments(config);
      Ok(BaseDir(location, home, cwd) + Split(config.agentsPath, '/'))
  }

  /** The concrete directories of the two platforms, as tests/fileOperations.test.js states them. */
  lemma TargetPathExamples(home: Path, cwd: Path)
    ensures GetTargetPath("global", "claude", home, cwd) == Ok(home + [".claude", "agents"])
    ensures GetTargetPath("local", "claude", home, cwd) == Ok(cwd + [".claude", "agents"])
    ensures GetTargetPath("anything-else", "claude", home, cwd) == Ok(cwd + [".claude", "agents"])
    ensures GetTargetPath("global", "cursor", home, cwd) == Ok(home + [".cursor", "agents"])
    ensures GetTargetPath("local", "cursor", home, cwd) == Ok(cwd + [".cursor", "agents"])
  {
  }

  /** Every location other than `'global'` resolves exactly as `'local'` does. */
  lemma NonGlobalIsLocal(location: string, platformId: string, home: Path, cwd: Path)
    requires location != "global"
    ensures GetTargetPath(location, platformId, home, cwd) == GetTargetPath("local", platformId, home, cwd)
  {
  }

  /**
   * The global directory lies under the home directory and the local one under
   * the working directory, so the two differ whenever home and cwd do.
   */
  lemma GlobalAndLocalDiffer(location: string, platformId: string, home: Path, cwd: Path)
    requires IsValidPlatform(platformId) && location != "global"
    ensures var g := GetTargetPath("global", platformId, home, cwd).value;
            |home| <= |g| && g[..|home|] == home
    ensures var l := GetTargetPath(location, platformId, home, cwd).value;
            |cwd| <= |l| && l[..|cwd|] == cwd
    ensures home != cwd ==> GetTargetPath("global", platformId, home, cwd) != GetTargetPath(location, platformId, home, cwd)
  {
  }

  /** A call that leaves the platform to its default always resolves. */
  lemma DefaultPlatformResolves(location: string, home: Path, cwd: Path)
    ensures GetTargetPath(location, GetDefaultPlatform(), home, cwd) == Ok(BaseDir(location, home, cwd) + [".claude", "agents"])
  {
  }

  /** `path.join(getTargetPath(location, platform), name + '.md')`: the file of one agent. */
  function AgentFilePath(name: string, location: string, platformId: string, home: Path, cwd: Path): (r: Result<Path, LookupError>)
    ensures r.Ok? <==> IsValidPlatform(platformId)
    ensures r.Err? && platformId in InheritedKeys ==> r.error == NoPathField(platformId)
    ensures r.Err? && platformId !in InheritedKeys ==> r.error == Unsupported(UnsupportedMessage(platformId))
    ensures r.Ok? ==> r.value == BaseDir(location, home, cwd) + [PlatformTable[platformId].directory, "agents", name + ".md"]
  {
    match GetTargetPath(location, platformId, home, cwd)
    case Err(message) => Err(message)
    case Ok(dir) => Ok(dir + [AgentFileName(name)])
  }

  /**
   * An accepted name's file is one segment directly inside the agents directory:
   * the segment cannot climb out of it.
   */
  lemma AgentFileStaysInsideTarget(name: string, location: string, platformId: string, home: Path, cwd: Path)
    requires SanitizeAgentName(name).Ok? && IsValidPlatform(platformId)
    ensures var dir := GetTargetPath(location, platformId, home, cwd).value;
            var file := AgentFilePath(name, location, platformId, home, cwd).value;
            |file| == |dir| + 1 && file[..|dir|] == dir && IsSafeSegment(file[|dir|])
  {
    AgentFileNameIsSafe(name);
  }

  /**
   * `agentExists`: whether the store holds the agent's file. The name is used as
   * given; the callers are the ones that sanitize it.
   */
  function AgentExists(name: string, location: string, platformId: string, home: Path, cwd: Path,
                       files: map<Path, string>): (r: Result<bool, LookupError>)
    ensures r.Ok? <==> IsValidPlatform(platformId)
    ensures r.Err? ==> r.error == GetTargetPath(location, platformId, home, cwd).error
    ensures r.Ok? ==> (r.value <==> GetTargetPath(location, platformId, home, cwd).value + [name + ".md"] in files)
  {
    match AgentFilePath(name, location, platformId, home, cwd)
    case Err(message) => Err(message)
    case Ok(file) => Ok(file in files)
  }

  /** The path `agentExists` probes, for either location. */
  lemma AgentExistsExamples(name: string, home: Path, cwd: Path, files: map<Path, string>)
    ensures AgentExists(name, "global", "claude", home, cwd, files)
      == Ok(home + [".claude", "agents", name + ".md"] in files)
    ensures AgentExists(name, "local", "claude", home, cwd, files)
      == Ok(cwd + [".claude", "agents", name + ".md"] in files)
  {
  }

  /** The target of `copyProtocol`: `AGENTS_PROTOCOL.md` in the platform directory. */
  function ProtocolTarget(location: string, platformId: string, home: Path, cwd: Path): (r: Result<Path, LookupError>)
    ensures r.Ok? <==> IsValidPlatform(platformId)
    ensures r.Err? && platformId in InheritedKeys ==> r.error == NoPathField(platformId)
    ensures r.Err? && platformId !in InheritedKeys ==> r.error == Unsupported(UnsupportedMessage(platformId))
    ensures r.Ok? ==> r.value == BaseDir(location, home, cwd) + [PlatformTable[platformId].directory, "AGENTS_PROTOCOL.md"]
  {
    match GetPlatformConfigAsWritten(platformId)
    case Err(message) => Err(Unsupported(message))
    case Ok(None) => Err(NoPathField(platformId))
    case Ok(Some(config)) =>
      AllEntriesFollowLayout();
      assert config == PlatformTable[platformId];
      LayoutSegments(config);
      var base := BaseDir(location, home, cwd);
      Ok(base + Split(config.directory, '/') + ["AGENTS_PROTOCOL.md"])
  }

  /**
   * A name inherited from `Object.prototype` gets past `getPlatformConfig`, and
   * both path operations then fail with the `TypeError`, not with the
   * unsupported-platform message.
   */
  lemma InheritedNameFailsAtSplit(location: string, home: Path, cwd: Path)
    ensures GetTargetPath(location, "toString", home, cwd) == Err(NoPathField("toString"))
    ensures ProtocolTarget(location, "toString", home, cwd) == Err(NoPathField("toString"))
    ensures LookupErrorMessage(NoPathField("toString")) != UnsupportedMessage("toString")
  {
    InheritedNameAcceptedAsWritten();
    TypeErrorIsNotUnsupported("toString");
  }

  /** The `TypeError` text never reads like the unsupported-platform message. */
  lemma TypeErrorIsNotUnsupported(platformId: string)
    ensures LookupErrorMessage(NoPathField(platformId)) != UnsupportedMessage(platformId)
  {
    var typeError := LookupErrorMessage(NoPathField(platformId));
    var unsupported := UnsupportedMessage(platformId);
    assert typeError[0] == 'C';
    assert unsupported[0] == 'U';
  }

  /** The protocol target is the registry's `protocolPath` resolved under the location's base. */
  lemma ProtocolMatchesRegistry(location: string, platformId: string, home: Path, cwd: Path)
    requires IsValidPlatform(platformId)
    ensures ProtocolTarget(location, platformId, home, cwd).value
      == BaseDir(location, home, cwd) + Split(PlatformTable[platformId].protocolPath, '/')
  {
    AllEntriesFollowLayout();
    LayoutSegments(PlatformTable[platformId]);
  }

  /** The protocol file sits in the parent of the agents directory. */
  lemma ProtocolBesideAgents(location: string, platformId: string, home: Path, cwd: Path)
    requires IsValidPlatform(platformId)
    ensures var agents := GetTargetPath(location, platformId, home, cwd).value;
            ProtocolTarget(location, platformId, home, cwd).value == agents[..|agents| - 1] + ["AGENTS_PROTOCOL.md"]
  {
    AllEntriesFollowLayout();
    LayoutSegments(PlatformTable[platformId]);
    var agents := GetTargetPath(location, platformId, home, cwd).value;
    assert agents[..|agents| - 1] == BaseDir(location, home, cwd) + [PlatformTable[platformId].directory];
  }

  /** One listed name as `getInstalledAgents` reports it: the first `.md` removed. */
  function InstalledName(file: string): string {
    ReplaceFirst(file, ".md", "")
  }

  /** The filter and map of `getInstalledAgents` over a directory listing. */
  function InstalledNames(listing: seq<string>): seq<string>
    decreases |listing|
  {
    if |listing| == 0 then []
    else if EndsWith(listing[0], ".md") then [InstalledName(listing[0])] + InstalledNames(listing[1..])
    else InstalledNames(listing[1..])
  }

  /** The listing is processed entry by entry, in order: it distributes over concatenation. */
  lemma {:induction false} InstalledNamesAppend(a: seq<string>, b: seq<string>)
    ensures InstalledNames(a + b) == InstalledNames(a) + InstalledNames(b)
    decreases |a|
  {
    if |a| == 0 {
      assert a + b == b;
    } else {
      assert (a + b)[0] == a[0];
      assert (a + b)[1..] == a[1..] + b;
      InstalledNamesAppend(a[1..], b);
    }
  }

  /** One entry contributes its stripped name when it ends in `.md`, and nothing otherwise. */
  lemma InstalledNamesSingle(file: string)
    ensures InstalledNames([file]) == if EndsWith(file, ".md") then [InstalledName(file)] else []
  {
  }

  /** A name is reported exactly when some `.md` entry of the listing strips to it. */
  lemma {:induction false} InstalledNamesMembership(listing: seq<string>, x: string)
    ensures x in InstalledNames(listing) <==>
            exists file :: file in listing && EndsWith(file, ".md") && InstalledName(file) == x
    decreases |listing|
  {
    if |listing| > 0 {
      InstalledNamesMembership(listing[1..], x);
      assert forall file :: file in listing <==> file == listing[0] || file in listing[1..];
    }
  }

  /** The file an accepted agent name is stored in lists back as that name. */
  lemma InstalledNameRoundTrip(name: string)
    requires SanitizeAgentName(name).Ok?
    ensures EndsWith(AgentFileName(name), ".md")
    ensures InstalledName(AgentFileName(name)) == name
  {
    PatternExcludesSeparators(name);
    var f := AgentFileName(name);
    assert f[|name|..] == ".md";
    IndexOfPastPrefix(name, ".md", ".md");
    var i := IndexOf(f, ".md");
    assert f[..i] == name;
    assert f[i + 3..] == [];
  }

  /**
   * Only the first `.md` is removed, wherever it is: a dot-free stem followed
   * by `.md` loses that occurrence and keeps the rest, so `a.md.md` lists as
   * `a.md` and `a.mdx.md` as `ax.md`.
   */
  lemma InstalledNameStripsFirst(a: string, b: string)
    requires '.' !in a
    ensures InstalledName(a + ".md" + b) == a + b
  {
    var f := a + ".md" + b;
    assert f == a + (".md" + b);
    IndexOfPastPrefix(a, ".md" + b, ".md");
    assert f[..|a|] == a && f[|a|..|a| + 3] == ".md" && f[|a| + 3..] == b;
  }

  /**
   * `getInstalledAgents`: no directory gives no agents; otherwise the `.md`
   * entries of the directory's listing, stripped. `listings` maps each existing
   * directory to what reading it returns.
   */
  function GetInstalledAgents(location: string, platformId: string, home: Path, cwd: Path,
                              listings: map<Path, seq<string>>): (r: Result<seq<string>, LookupError>)
    ensures r.Ok? <==> IsValidPlatform(platformId)
    ensures r.Err? ==> r.error == GetTargetPath(location, platformId, home, cwd).error
    ensures r.Ok? ==> var dir := GetTargetPath(location, platformId, home, cwd).value;
            r.value == if dir in listings then InstalledNames(listings[dir]) else []
  {
    match GetTargetPath(location, platformId, home, cwd)
    case Err(message) => Err(message)
    case Ok(dir) => Ok(if dir !in listings then [] else InstalledNames(listings[dir]))
  }

  /** Agent files are kept in order and stripped, other entries dropped. */
  lemma InstalledAgentsExamples(a: string, b: string, x: string, y: string)
    requires SanitizeAgentName(a).Ok? && SanitizeAgentName(b).Ok?
    requires !EndsWith(x, ".md") && !EndsWith(y, ".md")
    ensures InstalledNames([a + ".md", b + ".md", x]) == [a, b]
    ensures InstalledNames([a + ".md", x, y, b + ".md"]) == [a, b]
    ensures InstalledNames([a + ".md"]) == [a]
    ensures InstalledNames([]) == []
  {
    InstalledNameRoundTrip(a);
    InstalledNameRoundTrip(b);
    InstalledNamesAppend([a + ".md"], [b + ".md", x]);
    InstalledNamesAppend([b + ".md"], [x]);
    InstalledNamesAppend([a + ".md"], [x, y, b + ".md"]);
    InstalledNamesAppend([x, y], [b + ".md"]);
    InstalledNamesAppend([x], [y]);
  }
}

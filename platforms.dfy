/**
 * The static platform registry: one entry per supported editor integration,
 * each naming the directory its agents and protocol file live under.
 */
module Platforms {
  import opened Results
  import opened Strings

  datatype Platform = Platform(
    id: string,
    name: string,
    directory: string,
    agentsPath: string,
    protocolPath: string,
    displayName: string,
    emoji: string)

  const Claude := Platform("claude", "Claude Code", ".claude", ".claude/agents",
    ".claude/AGENTS_PROTOCOL.md", "Claude Code", "\U{1F916}")

  const Cursor := Platform("cursor", "Cursor", ".cursor", ".cursor/agents",
    ".cursor/AGENTS_PROTOCOL.md", "Cursor", "\U{1F5B1}\U{FE0F}")

  /** The keys of the registry in their declaration order, as `Object.keys` lists them. */
  const PlatformKeys: seq<string> := ["claude", "cursor"]

  /** The registry itself, keyed by platform id. */
  const PlatformTable: map<string, Platform> := map["claude" := Claude, "cursor" := Cursor]

  /** The text of the error thrown for an id the registry does not hold. */
  function UnsupportedMessage(platformId: string): string {
    "Unsupported platform: " + platformId + ". Supported platforms: " + Join(GetPlatformIds(), ", ")
  }

  /** `getPlatformConfig`: the table entry, or the unsupported-platform error. */
  function GetPlatformConfig(platformId: string): (r: Result<Platform, string>)
    ensures platformId == "claude" ==> r == Ok(Claude)
    ensures platformId == "cursor" ==> r == Ok(Cursor)
    ensures platformId != "claude" && platformId != "cursor" ==> r == Err(UnsupportedMessage(platformId))
  {
    if platformId in PlatformTable then Ok(PlatformTable[platformId]) else Err(UnsupportedMessage(platformId))
  }

  /** `getAllPlatforms`: the entries in key order. */
  function GetAllPlatforms(): (r: seq<Platform>)
    ensures |r| == |PlatformKeys|
    ensures forall k :: 0 <= k < |r| ==> PlatformKeys[k] in PlatformTable && r[k] == PlatformTable[PlatformKeys[k]]
  {
    [Claude, Cursor]
  }

  /** `getPlatformIds`: the keys in order. */
  function GetPlatformIds(): (r: seq<string>)
    ensures forall id :: id in r <==> id in PlatformTable
  {
    PlatformKeys
  }

  /** `isValidPlatform`: membership in the registry. */
  predicate IsValidPlatform(platformId: string) {
    platformId in PlatformTable
  }

  /** `getDefaultPlatform`. */
  function GetDefaultPlatform(): (r: string)
    ensures IsValidPlatform(r) && r == Claude.id
  {
    "claude"
  }

  /** The lookup succeeds exactly for the ids `isValidPlatform` accepts, and for nothing else. */
  lemma ValidIffLookupSucceeds(platformId: string)
    ensures IsValidPlatform(platformId) <==> GetPlatformConfig(platformId).Ok?
    ensures IsValidPlatform(platformId) <==> platformId in GetPlatformIds()
    ensures IsValidPlatform(platformId) <==> platformId == "claude" || platformId == "cursor"
  {
  }

  /** The error message lists the supported platforms. */
  lemma UnsupportedMessageText(platformId: string)
    ensures UnsupportedMessage(platformId)
      == "Unsupported platform: " + platformId + ". Supported platforms: claude, cursor"
  {
    assert Join(["claude", "cursor"], ", ") == "claude" + ", " + Join(["cursor"], ", ");
  }

  /** Every entry is stored under its own id, and the two enumerations agree entry by entry. */
  lemma EntriesStoredUnderTheirIds()
    ensures forall id :: id in PlatformTable ==> PlatformTable[id].id == id
    ensures |GetPlatformIds()| == |GetAllPlatforms()|
    ensures forall k :: 0 <= k < |GetAllPlatforms()| ==> GetAllPlatforms()[k].id == GetPlatformIds()[k]
  {
  }

  /**
   * The directory conventions every entry follows: the agents directory is the
   * platform directory plus one `agents` segment, and the protocol file sits
   * directly in the platform directory.
   */
  predicate FollowsLayout(p: Platform) {
    && p.directory != ""
    && '/' !in p.directory
    && p.agentsPath == p.directory + "/agents"
    && p.protocolPath == p.directory + "/AGENTS_PROTOCOL.md"
  }

  lemma AllEntriesFollowLayout()
    ensures forall id :: id in PlatformTable ==> FollowsLayout(PlatformTable[id])
  {
    ClaudeFollowsLayout();
    CursorFollowsLayout();
    forall id | id in PlatformTable ensures FollowsLayout(PlatformTable[id]) {
      assert id == "claude" || id == "cursor";
    }
  }

  lemma ClaudeFollowsLayout()
    ensures FollowsLayout(Claude)
  {
  }

  lemma CursorFollowsLayout()
    ensures FollowsLayout(Cursor)
  {
  }

  /** In segments: the agents directory extends the platform directory by exactly `agents`. */
  lemma {:induction false} LayoutSegments(p: Platform)
    requires FollowsLayout(p)
    ensures Split(p.directory, '/') == [p.directory]
    ensures Split(p.agentsPath, '/') == [p.directory, "agents"]
    ensures Split(p.protocolPath, '/') == [p.directory, "AGENTS_PROTOCOL.md"]
  {
    SplitNoSeparator(p.directory, '/');
    SegmentUnder(p.directory, "agents");
    assert p.agentsPath == p.directory + "/" + "agents";
    SegmentUnder(p.directory, "AGENTS_PROTOCOL.md");
    assert p.protocolPath == p.directory + "/" + "AGENTS_PROTOCOL.md";
  }

  /** `dir + "/" + leaf` splits into the directory and the leaf when neither holds a separator. */
  lemma SegmentUnder(dir: string, leaf: string)
    requires '/' !in dir && '/' !in leaf
    ensures Split(dir + "/" + leaf, '/') == [dir, leaf]
  {
    SplitNoSeparator(dir, '/');
    SplitNoSeparator(leaf, '/');
    SplitAppend(dir, '/', leaf);
    assert dir + "/" + leaf == dir + ['/'] + leaf;
  }

  /**
   * The property names a plain object literal inherits from `Object.prototype`
   * in Node.js; the `in` operator and bracket lookup both see them.
   */
  const InheritedKeys: set<string> := {
    "constructor", "hasOwnProperty", "isPrototypeOf", "propertyIsEnumerable",
    "toLocaleString", "toString", "valueOf", "__proto__",
    "__defineGetter__", "__defineSetter__", "__lookupGetter__", "__lookupSetter__"}

  /** `isValidPlatform` as written: `platformId in PLATFORMS` also holds for inherited names. */
  predicate IsValidPlatformAsWritten(platformId: string) {
    platformId in PlatformTable || platformId in InheritedKeys
  }

  /**
   * `getPlatformConfig` as written: bracket lookup finds an inherited member
   * too, which is truthy, so no error is thrown and the caller receives a value
   * that is no platform entry (`None` here).
   */
  function GetPlatformConfigAsWritten(platformId: string): (r: Result<Option<Platform>, string>)
    ensures r.Err? <==> !IsValidPlatformAsWritten(platformId)
    ensures r.Ok? && r.value.Some? <==> IsValidPlatform(platformId)
  {
    if platformId in PlatformTable then Ok(Some(PlatformTable[platformId]))
    else if platformId in InheritedKeys then Ok(None)
    else Err(UnsupportedMessage(platformId))
  }

  /**
   * As written, an inherited name such as `toString` passes the check and the
   * lookup, yet names no platform; the intended check and lookup reject it
   * with the unsupported-platform message.
   */
  lemma InheritedNameAcceptedAsWritten()
    ensures IsValidPlatformAsWritten("toString")
    ensures GetPlatformConfigAsWritten("toString") == Ok(None)
    ensures "toString" !in GetPlatformIds() && !IsValidPlatform("toString")
    ensures GetPlatformConfig("toString") == Err(UnsupportedMessage("toString"))
  {
  }

  /** The written and the intended check and lookup agree on every name that is not inherited from `Object.prototype`. */
  lemma AsWrittenAgreesOffPrototype(platformId: string)
    requires platformId !in InheritedKeys
    ensures IsValidPlatformAsWritten(platformId) <==> IsValidPlatform(platformId)
    ensures GetPlatformConfigAsWritten(platformId) == match GetPlatformConfig(platformId)
              case Ok(p) => Ok(Some(p))
              case Err(m) => Err(m)
  {
  }
}

/**
 * The agent-name sanitizer: every name that becomes part of a file path passes
 * through `SanitizeAgentName` first. The traversal check runs before the
 * character-class check, so a traversal attempt is always reported as such.
 */
module AgentNames {
  import opened Results
  import opened Strings

  datatype NameError =
    | PathSeparators     // the name contains `/`, `\` or `..`
    | InvalidCharacters  // the name is empty or has a character outside [A-Za-z0-9_-]

  /** The message of the error `sanitizeAgentName` throws. */
  function Message(e: NameError): string {
    match e
    case PathSeparators => "Agent name cannot contain path separators"
    case InvalidCharacters => "Agent name can only contain letters, numbers, hyphens, and underscores"
  }

  /** The traversal test: `/`, `\` or `..` anywhere in the name. */
  predicate HasTraversal(name: string) {
    Contains(name, "/") || Contains(name, "\\") || Contains(name, "..")
  }

  /** One character of the class `[A-Z0-9_-]` matched case-insensitively. */
  predicate IsNameChar(c: char) {
    ('A' <= c <= 'Z') || ('a' <= c <= 'z') || ('0' <= c <= '9') || c == '_' || c == '-'
  }

  /** The regular expression `^[A-Z0-9_-]+$` with the `i` flag: one or more class characters and nothing else. */
  predicate MatchesNamePattern(name: string) {
    |name| > 0 && forall i :: 0 <= i < |name| ==> IsNameChar(name[i])
  }

  /** A path segment that cannot leave the directory it is joined onto. */
  predicate IsSafeSegment(seg: string) {
    && seg != "" && seg != "." && seg != ".."
    && '/' !in seg && '\\' !in seg && !Contains(seg, "..")
  }

  /** A name made of class characters has no separator and no dot at all. */
  lemma PatternExcludesSeparators(name: string)
    requires MatchesNamePattern(name)
    ensures '/' !in name && '\\' !in name && '.' !in name
  {
  }

  /** Any name the traversal test catches would also fail the character class. */
  lemma TraversalFailsPattern(name: string)
    requires HasTraversal(name)
    ensures !MatchesNamePattern(name)
  {
    PatternHasNoTraversal(name);
  }

  lemma PatternHasNoTraversal(name: string)
    ensures MatchesNamePattern(name) ==> !HasTraversal(name)
  {
    if MatchesNamePattern(name) {
      PatternExcludesSeparators(name);
      NotContainsMissingChar(name, "/", '/');
      NotContainsMissingChar(name, "\\", '\\');
      NotContainsMissingChar(name, "..", '.');
    }
  }

  /** A name accepted by the character class is a safe path segment. */
  lemma PatternIsSafeSegment(name: string)
    requires MatchesNamePattern(name)
    ensures IsSafeSegment(name)
  {
    PatternExcludesSeparators(name);
    assert '.' in "." && '.' in "..";
    NotContainsMissingChar(name, "..", '.');
  }

  /**
   * `sanitizeAgentName`: the name is accepted, unchanged, exactly when it matches
   * the character class; a traversal attempt is reported with the separator
   * error, every other rejection with the character-class error.
   */
  function SanitizeAgentName(name: string): (r: Result<string, NameError>)
    ensures r.Ok? <==> MatchesNamePattern(name)
    ensures r.Ok? ==> r.value == name && IsSafeSegment(r.value)
    ensures r == Err(PathSeparators) <==> HasTraversal(name)
    ensures r == Err(InvalidCharacters) <==> !HasTraversal(name) && !MatchesNamePattern(name)
  {
    if HasTraversal(name) then
      TraversalFailsPattern(name);
      Err(PathSeparators)
    else if !MatchesNamePattern(name) then
      Err(InvalidCharacters)
    else
      PatternIsSafeSegment(name);
      Ok(name)
  }

  /** Sanitizing an accepted name again accepts it again, unchanged. */
  lemma SanitizeIdempotent(name: string)
    requires SanitizeAgentName(name).Ok?
    ensures SanitizeAgentName(SanitizeAgentName(name).value) == SanitizeAgentName(name)
  {
  }

  /** The name of the file an agent is stored in. */
  function AgentFileName(name: string): string {
    name + ".md"
  }

  /** The file name of an accepted agent name is itself one safe segment. */
  lemma {:induction false} AgentFileNameIsSafe(name: string)
    requires SanitizeAgentName(name).Ok?
    ensures IsSafeSegment(AgentFileName(name))
    ensures Split(AgentFileName(name), '/') == [AgentFileName(name)]
  {
    PatternExcludesSeparators(name);
    var f := AgentFileName(name);
    assert f[|name|..] == ".md";
    assert forall c :: c in f ==> c in name || c in ".md";
    assert f != "." && f != "..";
    assert forall i :: 0 <= i < |name| ==> f[i] == name[i];
    assert f[|name|] == '.' && f[|name| + 1] == 'm' && f[|name| + 2] == 'd';
    NotContainsPair(f, '.', '.');
    assert ".." == ['.', '.'];
    SplitNoSeparator(f, '/');
  }

  /** Traversal attempts from tests/security.test.js are rejected with the separator error. */
  lemma TraversalExamples()
    ensures SanitizeAgentName("../malicious") == Err(PathSeparators)
    ensures SanitizeAgentName("path/to/file") == Err(PathSeparators)
    ensures SanitizeAgentName("path\\to\\file") == Err(PathSeparators)
    ensures SanitizeAgentName("../../etc/passwd") == Err(PathSeparators)
  {
    assert StartsWith("../malicious", "..");
    ContainsAt("path/to/file", "/", 4);
    ContainsAt("path\\to\\file", "\\", 4);
    assert StartsWith("../../etc/passwd", "..");
  }

  /** Names used in tests/security.test.js and by the create flow are accepted unchanged. */
  lemma AcceptedExamples()
    ensures SanitizeAgentName("ARCHITECT") == Ok("ARCHITECT")
    ensures SanitizeAgentName("MY-AGENT_123") == Ok("MY-AGENT_123")
    ensures SanitizeAgentName("MY-CUSTOM-AGENT") == Ok("MY-CUSTOM-AGENT")
  {
    assert MatchesNamePattern("ARCHITECT");
    assert MatchesNamePattern("MY-AGENT_123");
    assert MatchesNamePattern("MY-CUSTOM-AGENT");
  }

  /** A space or an empty name fails the character class. */
  lemma CharacterClassExamples()
    ensures SanitizeAgentName("my agent") == Err(InvalidCharacters)
    ensures SanitizeAgentName("") == Err(InvalidCharacters)
  {
    assert !IsNameChar("my agent"[2]);
    NotContainsMissingChar("my agent", "/", '/');
    NotContainsMissingChar("my agent", "\\", '\\');
    NotContainsMissingChar("my agent", "..", '.');
    NotContainsMissingChar("", "/", '/');
    NotContainsMissingChar("", "\\", '\\');
    NotContainsMissingChar("", "..", '.');
  }
}

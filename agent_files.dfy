/**
 * The operations that write into an installation: copying bundled agents,
 * updating one agent, creating a custom agent from the template, and copying
 * the protocol file. The file system is an object whose one field maps paths to
 * file contents; the bundled templates are a map from file name to content.
 * Every operation either finishes or stops at its first error, keeping the
 * writes it already made.
 */
module AgentFiles {
  import opened Results
  import opened Strings
  import opened Platforms
  import opened AgentNames
  import opened AgentPaths
  import opened AgentTemplates

  /** The errors these operations throw. */
  datatype OpError =
    | InvalidName(reason: NameError)
    | PlatformLookup(cause: LookupError)
    | TemplateNotFound(file: string)

  function ErrorMessage(e: OpError): string {
    match e
    case InvalidName(reason) => Message(reason)
    case PlatformLookup(cause) => LookupErrorMessage(cause)
    case TemplateNotFound(file) => "Agent template not found: " + file
  }

  /** The file store after an operation, and the error it stopped with, if any. */
  datatype Outcome = Outcome(files: map<Path, string>, error: Option<OpError>)

  /** The error for one agent of a copy: a rejected name or a missing template. */
  function AgentFailure(agent: string, templates: map<string, string>): Option<OpError> {
    match SanitizeAgentName(agent)
    case Err(e) => Some(InvalidName(e))
    case Ok(name) => if AgentFileName(name) in templates then None else Some(TemplateNotFound(AgentFileName(name)))
  }

  /** `copyAgents`: each agent in turn is sanitized, looked up among the templates and copied over its target. */
  function CopyAll(files: map<Path, string>, agents: seq<string>, target: Path,
                   templates: map<string, string>): Outcome
    decreases |agents|
  {
    if |agents| == 0 then Outcome(files, None)
    else match AgentFailure(agents[0], templates)
      case Some(e) => Outcome(files, Some(e))
      case None =>
        var file := AgentFileName(agents[0]);
        CopyAll(files[target + [file] := templates[file]], agents[1..], target, templates)
  }

  /** `updateAgent`: the name is checked first, then the platform, then the template. */
  function UpdateOutcome(files: map<Path, string>, agentName: string, location: string, platformId: string,
                         home: Path, cwd: Path, templates: map<string, string>): Outcome
  {
    match SanitizeAgentName(agentName)
    case Err(e) => Outcome(files, Some(InvalidName(e)))
    case Ok(name) =>
      match GetTargetPath(location, platformId, home, cwd)
      case Err(cause) => Outcome(files, Some(PlatformLookup(cause)))
      case Ok(dir) =>
        var file := AgentFileName(name);
        if file !in templates then Outcome(files, Some(TemplateNotFound(file)))
        else Outcome(files[dir + [file] := templates[file]], None)
  }

  /**
   * `createCustomAgent`: the template, with its placeholders replaced as the
   * four `replace` calls do it, `$` patterns in the values included, is written
   * to the agent's file.
   */
  function CreateOutcome(files: map<Path, string>, agentName: string, location: string, metadata: Metadata,
                         platformId: string, home: Path, cwd: Path, template: string): Outcome
  {
    match SanitizeAgentName(agentName)
    case Err(e) => Outcome(files, Some(InvalidName(e)))
    case Ok(name) =>
      match GetTargetPath(location, platformId, home, cwd)
      case Err(cause) => Outcome(files, Some(PlatformLookup(cause)))
      case Ok(dir) => Outcome(files[dir + [AgentFileName(name)] := RenderAsWritten(template, name, metadata)], None)
  }

  /** `copyProtocol`: the protocol file is written beside the agents directory. */
  function ProtocolOutcome(files: map<Path, string>, location: string, platformId: string,
                           home: Path, cwd: Path, protocol: string): Outcome
  {
    match ProtocolTarget(location, platformId, home, cwd)
    case Err(cause) => Outcome(files, Some(PlatformLookup(cause)))
    case Ok(path) => Outcome(files[path := protocol], None)
  }

  class FileSystem {
    var files: map<Path, string>

    constructor(initial: map<Path, string>)
      ensures files == initial
    {
      files := initial;
    }

    method CopyAgents(agents: seq<string>, targetPath: Path, templates: map<string, string>)
      returns (error: Option<OpError>)
      modifies this
      ensures Outcome(files, error) == CopyAll(old(files), agents, targetPath, templates)
    {
      var i := 0;
      while i < |agents|
        invariant 0 <= i <= |agents|
        invariant CopyAll(old(files), agents, targetPath, templates) == CopyAll(files, agents[i..], targetPath, templates)
      {
        assert agents[i..][0] == agents[i] && agents[i..][1..] == agents[i + 1..];
        var sanitized := SanitizeAgentName(agents[i]);
        if sanitized.Err? {
          return Some(InvalidName(sanitized.error));
        }
        var file := AgentFileName(sanitized.value);
        if file !in templates {
          return Some(TemplateNotFound(file));
        }
        files := files[targetPath + [file] := templates[file]];
        i := i + 1;
      }
      return None;
    }

    method UpdateAgent(agentName: string, location: string, platformId: string, home: Path, cwd: Path,
                       templates: map<string, string>) returns (error: Option<OpError>)
      modifies this
      ensures Outcome(files, error) == UpdateOutcome(old(files), agentName, location, platformId, home, cwd, templates)
    {
      var sanitized := SanitizeAgentName(agentName);
      if sanitized.Err? {
        return Some(InvalidName(sanitized.error));
      }
      var file := AgentFileName(sanitized.value);
      var target := GetTargetPath(location, platformId, home, cwd);
      if target.Err? {
        return Some(PlatformLookup(target.error));
      }
      if file !in templates {
        return Some(TemplateNotFound(file));
      }
      files := files[target.value + [file] := templates[file]];
      return None;
    }

    method CreateCustomAgent(agentName: string, location: string, metadata: Metadata, platformId: string,
                             home: Path, cwd: Path, template: string) returns (error: Option<OpError>)
      modifies this
      ensures Outcome(files, error)
           == CreateOutcome(old(files), agentName, location, metadata, platformId, home, cwd, template)
    {
      var sanitized := SanitizeAgentName(agentName);
      if sanitized.Err? {
        return Some(InvalidName(sanitized.error));
      }
      var name := sanitized.value;
      var target := GetTargetPath(location, platformId, home, cwd);
      if target.Err? {
        return Some(PlatformLookup(target.error));
      }
      var text := template;
      text := JsReplaceAll(text, Token(AgentName), name);
      text := JsReplaceAll(text, Token(Description), OrDefault(metadata.description, "Custom agent"));
      text := JsReplaceAll(text, Token(Model), OrDefault(metadata.model, "sonnet"));
      text := JsReplaceAll(text, Token(Color), OrDefault(metadata.color, "gray"));
      files := files[target.value + [AgentFileName(name)] := text];
      return None;
    }

    method CopyProtocol(location: string, platformId: string, home: Path, cwd: Path, protocol: string)
      returns (error: Option<OpError>)
      modifies this
      ensures Outcome(files, error) == ProtocolOutcome(old(files), location, platformId, home, cwd, protocol)
    {
      var target := ProtocolTarget(location, platformId, home, cwd);
      if target.Err? {
        return Some(PlatformLookup(target.error));
      }
      files := files[target.value := protocol];
      return None;
    }
  }

  // What the copy promises.

  /** An agent the copy can install: an accepted name with a bundled template. */
  predicate Installable(agent: string, templates: map<string, string>) {
    AgentFailure(agent, templates).None?
  }

  /** The error does not depend on what the store holds. */
  lemma {:induction false} CopyAllErrorIgnoresFiles(f1: map<Path, string>, f2: map<Path, string>, agents: seq<string>,
                                                    target: Path, templates: map<string, string>)
    ensures CopyAll(f1, agents, target, templates).error == CopyAll(f2, agents, target, templates).error
    decreases |agents|
  {
    if |agents| > 0 && Installable(agents[0], templates) {
      var file := AgentFileName(agents[0]);
      CopyAllErrorIgnoresFiles(f1[target + [file] := templates[file]], f2[target + [file] := templates[file]],
                               agents[1..], target, templates);
    }
  }

  /** The copy succeeds exactly when every agent can be installed. */
  lemma {:induction false} CopyAllSucceedsIff(files: map<Path, string>, agents: seq<string>, target: Path,
                                              templates: map<string, string>)
    ensures CopyAll(files, agents, target, templates).error.None? <==>
            forall k :: 0 <= k < |agents| ==> Installable(agents[k], templates)
    decreases |agents|
  {
    if |agents| > 0 && Installable(agents[0], templates) {
      var file := AgentFileName(agents[0]);
      CopyAllSucceedsIff(files[target + [file] := templates[file]], agents[1..], target, templates);
      assert forall k :: 1 <= k < |agents| ==> agents[k] == agents[1..][k - 1];
    }
  }

  /**
   * On failure the copy stopped at the first agent it could not install, with
   * that agent's error, having installed exactly the agents before it.
   */
  lemma {:induction false} CopyAllStopsAtFirstFailure(files: map<Path, string>, agents: seq<string>, target: Path,
                                                      templates: map<string, string>) returns (k: nat)
    requires CopyAll(files, agents, target, templates).error.Some?
    ensures k < |agents|
    ensures forall j :: 0 <= j < k ==> Installable(agents[j], templates)
    ensures CopyAll(files, agents, target, templates).error == AgentFailure(agents[k], templates)
    ensures CopyAll(files, agents, target, templates).files == CopyAll(files, agents[..k], target, templates).files
    decreases |agents|
  {
    if !Installable(agents[0], templates) {
      k := 0;
    } else {
      var file := AgentFileName(agents[0]);
      var next := files[target + [file] := templates[file]];
      var k' := CopyAllStopsAtFirstFailure(next, agents[1..], target, templates);
      k := k' + 1;
      assert forall j :: 1 <= j < k ==> agents[j] == agents[1..][j - 1];
      assert agents[..k][0] == agents[0] && agents[..k][1..] == agents[1..][..k'];
    }
  }

  /** A copy only adds files; it never removes one. */
  lemma {:induction false} CopyAllKeepsPaths(files: map<Path, string>, agents: seq<string>, target: Path,
                                             templates: map<string, string>)
    ensures files.Keys <= CopyAll(files, agents, target, templates).files.Keys
    decreases |agents|
  {
    if |agents| > 0 && Installable(agents[0], templates) {
      var file := AgentFileName(agents[0]);
      CopyAllKeepsPaths(files[target + [file] := templates[file]], agents[1..], target, templates);
    }
  }

  /**
   * Whatever the outcome, every path the copy wrote is one safe file-name
   * segment inside the target, the file of one of the agents, holding that
   * agent's template.
   */
  lemma {:induction false} CopyAllWritesOnlyAgentFiles(files: map<Path, string>, agents: seq<string>, target: Path,
                                                       templates: map<string, string>)
    ensures var after := CopyAll(files, agents, target, templates).files;
            forall p :: p in after && (p !in files || after[p] != files[p]) ==>
              exists k :: 0 <= k < |agents| && Installable(agents[k], templates)
                          && p == target + [AgentFileName(agents[k])]
                          && IsSafeSegment(AgentFileName(agents[k]))
                          && after[p] == templates[AgentFileName(agents[k])]
    decreases |agents|
  {
    if |agents| > 0 && Installable(agents[0], templates) {
      var file := AgentFileName(agents[0]);
      var next := files[target + [file] := templates[file]];
      var after := CopyAll(files, agents, target, templates).files;
      CopyAllWritesOnlyAgentFiles(next, agents[1..], target, templates);
      AgentFileNameIsSafe(agents[0]);
      forall p | p in after && (p !in files || after[p] != files[p])
        ensures exists k :: 0 <= k < |agents| && Installable(agents[k], templates)
                            && p == target + [AgentFileName(agents[k])]
                            && IsSafeSegment(AgentFileName(agents[k]))
                            && after[p] == templates[AgentFileName(agents[k])]
      {
        if p == target + [file] {
          PathKeepsTemplate(next, agents[1..], target, templates, file);
          assert Installable(agents[0], templates) && p == target + [AgentFileName(agents[0])];
        } else {
          var k :| 0 <= k < |agents[1..]| && Installable(agents[1..][k], templates)
                   && p == target + [AgentFileName(agents[1..][k])]
                   && IsSafeSegment(AgentFileName(agents[1..][k]))
                   && after[p] == templates[AgentFileName(agents[1..][k])];
          assert agents[1..][k] == agents[k + 1];
        }
      }
    }
  }

  /** A file already holding its template keeps it: every later write of the same path writes the same content. */
  lemma {:induction false} PathKeepsTemplate(files: map<Path, string>, agents: seq<string>, target: Path,
                                             templates: map<string, string>, file: string)
    requires target + [file] in files && file in templates && files[target + [file]] == templates[file]
    ensures var after := CopyAll(files, agents, target, templates).files;
            target + [file] in after && after[target + [file]] == templates[file]
    decreases |agents|
  {
    if |agents| > 0 && Installable(agents[0], templates) {
      var f := AgentFileName(agents[0]);
      var next := files[target + [f] := templates[f]];
      if f != file {
        assert target + [f] != target + [file] by {
          assert (target + [f])[|target|] == f && (target + [file])[|target|] == file;
        }
      }
      PathKeepsTemplate(next, agents[1..], target, templates, file);
    }
  }

  /** After a successful copy, every agent's file holds its template. */
  lemma {:induction false} CopyAllInstallsEvery(files: map<Path, string>, agents: seq<string>, target: Path,
                                                templates: map<string, string>)
    requires CopyAll(files, agents, target, templates).error.None?
    ensures var after := CopyAll(files, agents, target, templates).files;
            forall k :: 0 <= k < |agents| ==>
              && AgentFileName(agents[k]) in templates
              && target + [AgentFileName(agents[k])] in after
              && after[target + [AgentFileName(agents[k])]] == templates[AgentFileName(agents[k])]
    decreases |agents|
  {
    if |agents| > 0 {
      var file := AgentFileName(agents[0]);
      var next := files[target + [file] := templates[file]];
      CopyAllInstallsEvery(next, agents[1..], target, templates);
      PathKeepsTemplate(next, agents[1..], target, templates, file);
      assert forall k :: 1 <= k < |agents| ==> agents[k] == agents[1..][k - 1];
    }
  }

  /** Copying the same agents again changes nothing: the copy overwrites with the same contents. */
  lemma {:induction false} CopyAllIdempotent(files: map<Path, string>, agents: seq<string>, target: Path,
                                             templates: map<string, string>)
    ensures var once := CopyAll(files, agents, target, templates);
            CopyAll(once.files, agents, target, templates) == once
    decreases |agents|
  {
    if |agents| > 0 && Installable(agents[0], templates) {
      var file := AgentFileName(agents[0]);
      var next := files[target + [file] := templates[file]];
      var once := CopyAll(next, agents[1..], target, templates);
      PathKeepsTemplate(next, agents[1..], target, templates, file);
      assert once.files[target + [file] := templates[file]] == once.files;
      CopyAllIdempotent(next, agents[1..], target, templates);
    }
  }

  /** Installing no agents changes nothing. */
  lemma CopyNothing(files: map<Path, string>, target: Path, templates: map<string, string>)
    ensures CopyAll(files, [], target, templates) == Outcome(files, None)
  {
  }

  // What update, create and the protocol copy promise.

  /** On a supported platform, updating an agent is copying that one agent into the platform's directory. */
  lemma UpdateIsSingleCopy(files: map<Path, string>, agentName: string, location: string, platformId: string,
                           home: Path, cwd: Path, templates: map<string, string>)
    requires IsValidPlatform(platformId)
    ensures UpdateOutcome(files, agentName, location, platformId, home, cwd, templates)
         == CopyAll(files, [agentName], GetTargetPath(location, platformId, home, cwd).value, templates)
  {
    var r := CopyAll(files, [agentName], GetTargetPath(location, platformId, home, cwd).value, templates);
    if Installable(agentName, templates) {
      assert [agentName][1..] == [];
    }
  }

  /** A rejected name is reported before the platform is looked up, and nothing is written. */
  lemma UpdateChecksNameFirst(files: map<Path, string>, agentName: string, location: string, platformId: string,
                              home: Path, cwd: Path, templates: map<string, string>, metadata: Metadata,
                              template: string)
    requires SanitizeAgentName(agentName).Err?
    ensures UpdateOutcome(files, agentName, location, platformId, home, cwd, templates)
         == Outcome(files, Some(InvalidName(SanitizeAgentName(agentName).error)))
    ensures CreateOutcome(files, agentName, location, metadata, platformId, home, cwd, template)
         == Outcome(files, Some(InvalidName(SanitizeAgentName(agentName).error)))
  {
  }

  /**
   * A platform that is not in the registry stops update and create before the
   * template check, writing nothing: with the registry's message, or, for a
   * name inherited from `Object.prototype`, with the `TypeError` of `split`.
   */
  lemma UnsupportedPlatformWritesNothing(files: map<Path, string>, agentName: string, location: string,
                                         metadata: Metadata, platformId: string, home: Path, cwd: Path,
                                         templates: map<string, string>, template: string)
    requires SanitizeAgentName(agentName).Ok? && !IsValidPlatform(platformId)
    ensures var cause := if platformId in InheritedKeys then NoPathField(platformId)
                         else Unsupported(UnsupportedMessage(platformId));
            && UpdateOutcome(files, agentName, location, platformId, home, cwd, templates)
               == Outcome(files, Some(PlatformLookup(cause)))
            && CreateOutcome(files, agentName, location, metadata, platformId, home, cwd, template)
               == Outcome(files, Some(PlatformLookup(cause)))
  {
  }

  /**
   * A successful create writes exactly one file, the agent's file directly
   * inside the platform's agents directory, holding the template with its
   * placeholders replaced as written; when no value holds `$`, that is the
   * plain replacement `Render`.
   */
  lemma CreateWritesOneFile(files: map<Path, string>, agentName: string, location: string, metadata: Metadata,
                            platformId: string, home: Path, cwd: Path, template: string)
    requires SanitizeAgentName(agentName).Ok? && IsValidPlatform(platformId)
    ensures var r := CreateOutcome(files, agentName, location, metadata, platformId, home, cwd, template);
            var dir := GetTargetPath(location, platformId, home, cwd).value;
            var path := dir + [agentName + ".md"];
            && r.error.None?
            && r.files.Keys == files.Keys + {path}
            && r.files[path] == RenderAsWritten(template, agentName, metadata)
            && (forall p :: p in files && p != path ==> r.files[p] == files[p])
            && IsSafeSegment(agentName + ".md")
            && ((forall p :: '$' !in Value(p, agentName, metadata)) ==> r.files[path] == Render(template, agentName, metadata))
  {
    AgentFileNameIsSafe(agentName);
    if forall p :: '$' !in Value(p, agentName, metadata) {
      RenderAsWrittenAgrees(template, agentName, metadata);
    }
  }

  /**
   * Created from a template whose braces all open placeholders, with metadata
   * free of `{` and `$`, the agent's file holds the template with every
   * placeholder replaced by its value.
   */
  lemma CreateFillsTemplate(files: map<Path, string>, agentName: string, location: string, metadata: Metadata,
                            platformId: string, home: Path, cwd: Path, pieces: seq<Piece>)
    requires SanitizeAgentName(agentName).Ok? && IsValidPlatform(platformId)
    requires PlainText(pieces)
    requires metadata.description.Some? ==> '{' !in metadata.description.value && '$' !in metadata.description.value
    requires metadata.model.Some? ==> '{' !in metadata.model.value && '$' !in metadata.model.value
    requires metadata.color.Some? ==> '{' !in metadata.color.value && '$' !in metadata.color.value
    ensures var r := CreateOutcome(files, agentName, location, metadata, platformId, home, cwd, Flatten(pieces));
            var path := GetTargetPath(location, platformId, home, cwd).value + [agentName + ".md"];
            r.files[path] == Fill(pieces, p => Value(p, agentName, metadata))
  {
    ValuesBraceFree(agentName, metadata);
    ValuesDollarFree(agentName, metadata);
    RenderAsWrittenAgrees(Flatten(pieces), agentName, metadata);
    RenderFillsSlots(pieces, agentName, metadata);
  }

  /**
   * The `$` expansion reaches the created file: a description `$&` with the
   * template `{DESCRIPTION}` writes `{DESCRIPTION}` back.
   */
  lemma CreateWithDollarDescription(files: map<Path, string>, agentName: string, location: string,
                                    platformId: string, home: Path, cwd: Path)
    requires SanitizeAgentName(agentName).Ok? && IsValidPlatform(platformId)
    ensures var r := CreateOutcome(files, agentName, location, Metadata(Some("$&"), None, None), platformId,
                                   home, cwd, Token(Description));
            var path := GetTargetPath(location, platformId, home, cwd).value + [agentName + ".md"];
            r.error.None? && r.files[path] == Token(Description)
  {
    DollarDescriptionKeepsPlaceholder(agentName);
  }

  /** The protocol copy writes one file, `AGENTS_PROTOCOL.md` in the platform directory, beside the agents directory. */
  lemma ProtocolWritesOneFile(files: map<Path, string>, location: string, platformId: string,
                              home: Path, cwd: Path, protocol: string)
    ensures var r := ProtocolOutcome(files, location, platformId, home, cwd, protocol);
            && (r.error.None? <==> IsValidPlatform(platformId))
            && (r.error.Some? && platformId !in InheritedKeys ==>
                  r == Outcome(files, Some(PlatformLookup(Unsupported(UnsupportedMessage(platformId))))))
            && (r.error.Some? && platformId in InheritedKeys ==>
                  r == Outcome(files, Some(PlatformLookup(NoPathField(platformId)))))
            && (r.error.None? ==>
                  var agents := GetTargetPath(location, platformId, home, cwd).value;
                  var path := agents[..|agents| - 1] + ["AGENTS_PROTOCOL.md"];
                  r.files == files[path := protocol])
  {
    if IsValidPlatform(platformId) {
      ProtocolBesideAgents(location, platformId, home, cwd);
    }
  }

  /** The messages of the errors are the ones `copyAgents`, `sanitizeAgentName` and the lookups throw. */
  lemma ErrorMessages(file: string, platformId: string)
    ensures ErrorMessage(TemplateNotFound(file)) == "Agent template not found: " + file
    ensures ErrorMessage(InvalidName(PathSeparators)) == "Agent name cannot contain path separators"
    ensures ErrorMessage(InvalidName(InvalidCharacters))
         == "Agent name can only contain letters, numbers, hyphens, and underscores"
    ensures ErrorMessage(PlatformLookup(Unsupported(UnsupportedMessage(platformId))))
         == "Unsupported platform: " + platformId + ". Supported platforms: claude, cursor"
    ensures ErrorMessage(PlatformLookup(NoPathField(platformId)))
         == "Cannot read properties of undefined (reading 'split')"
  {
    UnsupportedMessageText(platformId);
  }
}

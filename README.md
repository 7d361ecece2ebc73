# claude-agents core in Dafny

A model of the installer core of the `claude-agents` command-line tool. The tool
copies bundled agent definitions (Markdown files) into an editor's agents
directory, updates them, creates custom agents from a template, lists what is
installed and checks that an agent file has the expected structure. Two files
make up the core:

- `src/utils/platforms.js`: the static registry of supported platforms
  (`claude`, `cursor`), its lookup, membership test, id list and default.
- `src/utils/fileOperations.js`: the agent-name sanitizer, path resolution for
  the agents directory, an agent's file and the protocol file, the listing
  filter of installed agents, the copy, update and create operations, and the
  structural validator.

The model has one module per concern:

| file | module | models |
|---|---|---|
| `results.dfy` | `Results` | `Option` and `Result`, standing for JavaScript's thrown errors |
| `strings.dfy` | `Strings` | `startsWith`, `endsWith`, `includes`, `indexOf`, `replace` (first occurrence), global replacement, `split`, `join` |
| `platforms.dfy` | `Platforms` | the `PLATFORMS` table and its five functions |
| `agent_names.dfy` | `AgentNames` | `sanitizeAgentName` and the agent file name |
| `agent_paths.dfy` | `AgentPaths` | `getTargetPath`, the path `agentExists` probes, the `copyProtocol` target, `getInstalledAgents` |
| `agent_templates.dfy` | `AgentTemplates` | the four placeholder replacements of `createCustomAgent`, and the same replacements with JavaScript's `$` patterns |
| `agent_validation.dfy` | `AgentValidation` | `validateAgent` as a loop that pushes errors |
| `agent_files.dfy` | `AgentFiles` | `copyAgents`, `updateAgent`, `createCustomAgent`, `copyProtocol` as methods of a `FileSystem` object whose one field maps paths to contents |

Paths are sequences of segments. The home directory and the working directory
are parameters. A thrown error is an `Err` or `Some(error)` result. The bundled
agent templates are a map from file name to content. The custom-agent template
and the protocol file are given as strings. A directory listing is a map from
directory path to the names that reading it returns.

Each file-changing method is proved against a function that states the new store
and the error (`CopyAll`, `UpdateOutcome`, `CreateOutcome`, `ProtocolOutcome`),
and the lemmas beside those functions state what the program promises. The operations follow the code as written: the
file operations take the platform lookup with JavaScript's `in` and bracket
semantics, and write the template after JavaScript's `replace`, which expands
`$` patterns in the replacement values. The intended behaviour (`GetPlatformConfig`,
`Render`) is kept beside it, with lemmas saying where the two agree and inputs
where they do not (see Findings). Placeholder substitution (`Render`) is checked against an independent description of a
template as literal text interleaved with placeholders (`Flatten` and `Fill`).

## Model

| member | source | states |
|---|---|---|
| Platforms.GetPlatformConfig | src/utils/platforms.js:44-50 | `claude` and `cursor` give their table entries; every other id gives the unsupported-platform error |
| Platforms.GetAllPlatforms | src/utils/platforms.js:56-58 | one entry per key, in key order, each the entry stored under that key |
| Platforms.GetPlatformIds | src/utils/platforms.js:64-66 | an id is listed exactly when the table holds it |
| Platforms.GetDefaultPlatform | src/utils/platforms.js:81-83 | the default is `claude`, a valid platform |
| Platforms.IsValidPlatform | src/utils/platforms.js:73-75 | definition of the intended check: the id is one of the table's own keys; its properties are stated by `ValidIffLookupSucceeds` |
| Platforms.ValidIffLookupSucceeds | src/utils/platforms.js:73-75 | `isValidPlatform` holds exactly when the lookup succeeds, exactly for listed ids, exactly for `claude` and `cursor` |
| Platforms.UnsupportedMessageText | src/utils/platforms.js:47 | the error text is `Unsupported platform: <id>. Supported platforms: claude, cursor` |
| Platforms.EntriesStoredUnderTheirIds | src/utils/platforms.js:7-25 | each entry's `id` is its key; the id list and the entry list have equal length and agree position by position |
| Platforms.AllEntriesFollowLayout | src/utils/platforms.js:8-25 | every entry's `agentsPath` is `directory/agents`, its `protocolPath` is `directory/AGENTS_PROTOCOL.md`, and `directory` is one non-empty segment |
| Platforms.LayoutSegments | src/utils/platforms.js:8-25 | split on `/`, the agents path is the directory segment plus `agents`, and the protocol path is the directory segment plus `AGENTS_PROTOCOL.md` |
| Platforms.SegmentUnder | src/utils/fileOperations.js:34 | `dir/leaf` splits into exactly `[dir, leaf]` when neither holds a `/` |
| Platforms.GetPlatformConfigAsWritten | src/utils/platforms.js:44-50 | as written, the lookup fails exactly for names that are neither keys nor inherited, and yields an entry exactly for keys |
| Platforms.IsValidPlatformAsWritten | src/utils/platforms.js:73-75 | definition of `platformId in PLATFORMS` as written: a table key or one of the twelve names every object inherits from `Object.prototype`; compared with the intended check by `InheritedNameAcceptedAsWritten` and `AsWrittenAgreesOffPrototype` |
| Platforms.InheritedNameAcceptedAsWritten | src/utils/platforms.js:73-75 | as written, `toString` passes the check and the lookup while naming no platform; the intended check and lookup reject it |
| Platforms.AsWrittenAgreesOffPrototype | src/utils/platforms.js:44-50 | the written and the intended check and lookup agree on every name not inherited from `Object.prototype` |
| AgentNames.SanitizeAgentName | src/utils/fileOperations.js:12-24 | a name is accepted exactly when it matches `^[A-Za-z0-9_-]+$`, and then returned unchanged as a safe path segment; the separator error comes exactly when the name holds `/`, `\` or `..`; the character error exactly when it holds none of those and fails the class |
| AgentNames.HasTraversal | src/utils/fileOperations.js:14 | definition of the separator test: the name contains `/`, `\` or `..`; used by the contract of `SanitizeAgentName` |
| AgentNames.MatchesNamePattern | src/utils/fileOperations.js:19 | definition of `^[A-Z0-9_-]+$` with the `i` flag: a non-empty name of letters, digits, `_` and `-`; used by the contract of `SanitizeAgentName` |
| AgentNames.TraversalFailsPattern | src/utils/fileOperations.js:14-21 | every name the traversal test catches would also fail the character class |
| AgentNames.PatternExcludesSeparators | src/utils/fileOperations.js:19 | a name of class characters holds no `/`, no `\` and no `.` |
| AgentNames.PatternIsSafeSegment | src/utils/fileOperations.js:19-23 | an accepted name cannot leave the directory it is joined onto |
| AgentNames.SanitizeIdempotent | src/utils/fileOperations.js:23 | sanitizing an accepted name again accepts it with the same value |
| AgentNames.AgentFileNameIsSafe | src/utils/fileOperations.js:70-71 | `<name>.md` of an accepted name is one safe segment that `/` does not split |
| AgentNames.TraversalExamples | src/utils/fileOperations.js:14-16 | `../malicious`, `path/to/file`, `path\to\file` and `../../etc/passwd` get the separator error |
| AgentNames.AcceptedExamples | src/utils/fileOperations.js:19-23 | `ARCHITECT`, `MY-AGENT_123` and `MY-CUSTOM-AGENT` are accepted unchanged |
| AgentNames.CharacterClassExamples | src/utils/fileOperations.js:19-21 | `my agent` and the empty name get the character error |
| AgentPaths.GetTargetPath | src/utils/fileOperations.js:32-41 | succeeds exactly for valid platforms; an inherited name fails with the `TypeError` of `split`, any other invalid id with the registry's error; the path is the location's base plus the platform directory and `agents` |
| AgentPaths.TargetPathExamples | src/utils/fileOperations.js:36-40 | the concrete global and local directories of both platforms, and `anything-else` resolving locally |
| AgentPaths.NonGlobalIsLocal | src/utils/fileOperations.js:38-40 | every location other than `global` resolves as `local` does |
| AgentPaths.GlobalAndLocalDiffer | src/utils/fileOperations.js:36-40 | the global directory lies under home, the local one under cwd, and they differ whenever home and cwd differ |
| AgentPaths.DefaultPlatformResolves | src/utils/fileOperations.js:32-33 | a call with the default platform always resolves, to `.claude/agents` under the base |
| AgentPaths.AgentFilePath | src/utils/fileOperations.js:145 | the agent's file is the target directory plus `<name>.md`, with the same two lookup errors as `GetTargetPath` |
| AgentPaths.AgentFileStaysInsideTarget | src/utils/fileOperations.js:142-145 | for an accepted name the file path is the target directory plus one safe segment |
| AgentPaths.AgentExists | src/utils/fileOperations.js:128-132 | the answer is whether the store holds exactly the target directory plus `<name>.md`; a failed lookup is the error of `GetTargetPath` |
| AgentPaths.AgentExistsExamples | src/utils/fileOperations.js:128-132 | the probed paths for `claude` under home and under cwd |
| AgentPaths.ProtocolTarget | src/utils/fileOperations.js:88-97 | succeeds exactly for valid platforms; an inherited name fails with the `TypeError` of `split`, any other invalid id with the registry's error; the path is the base plus the platform directory and `AGENTS_PROTOCOL.md` |
| AgentPaths.InheritedNameFailsAtSplit | src/utils/fileOperations.js:33-34 | for `toString` both path operations fail with the `TypeError`, whose text differs from the unsupported-platform message |
| AgentPaths.TypeErrorIsNotUnsupported | src/utils/fileOperations.js:34 | the `TypeError` text is never the unsupported-platform message |
| AgentPaths.ProtocolMatchesRegistry | src/utils/fileOperations.js:88-97 | the protocol target is the registry's `protocolPath` resolved under the base |
| AgentPaths.ProtocolBesideAgents | src/utils/fileOperations.js:88-97 | the protocol file lies in the parent of the agents directory |
| AgentPaths.InstalledNamesAppend | src/utils/fileOperations.js:116-118 | the listing filter works entry by entry, keeping the listing's order |
| AgentPaths.InstalledNamesSingle | src/utils/fileOperations.js:117-118 | an entry contributes its stripped name when it ends in `.md`, and nothing otherwise |
| AgentPaths.InstalledNamesMembership | src/utils/fileOperations.js:116-118 | a name is reported exactly when some `.md` entry strips to it |
| AgentPaths.InstalledNameRoundTrip | src/utils/fileOperations.js:118 | the file of an accepted name lists back as that name |
| AgentPaths.InstalledNameStripsFirst | src/utils/fileOperations.js:118 | only the first `.md` is removed: a dot-free stem followed by `.md` and any rest becomes stem plus rest |
| AgentPaths.InstalledName | src/utils/fileOperations.js:118 | definition of `file.replace('.md', '')`: the first `.md` removed; its properties are stated by `InstalledNameRoundTrip` and `InstalledNameStripsFirst` |
| AgentPaths.InstalledNames | src/utils/fileOperations.js:116-118 | definition of the filter and map over a listing; its properties are stated by `InstalledNamesAppend`, `InstalledNamesSingle` and `InstalledNamesMembership` |
| AgentPaths.GetInstalledAgents | src/utils/fileOperations.js:108-119 | succeeds exactly for valid platforms, a failure carrying the error of `GetTargetPath`; a missing directory gives no agents, otherwise the filtered and stripped listing |
| AgentPaths.InstalledAgentsExamples | src/utils/fileOperations.js:116-118 | agent files are kept in order and stripped, other entries are dropped, an empty listing gives nothing |
| AgentTemplates.ValueDefaults | src/utils/fileOperations.js:172-175 | missing or empty fields take `Custom agent`, `sonnet` and `gray`; present fields and the name are used as given |
| AgentTemplates.Render | src/utils/fileOperations.js:172-175 | definition of the intended rendering: the four placeholders replaced globally, in order, by their values taken literally; its properties are stated by `RenderFillsSlots` and `RenderLeavesNoPlaceholder` |
| AgentTemplates.RenderFillsSlots | src/utils/fileOperations.js:172-175 | for a template whose braces all open placeholders and brace-free values, the result is the template with each placeholder replaced by its value |
| AgentTemplates.ReplaceFillsOne | src/utils/fileOperations.js:172-175 | one global replacement fills exactly the placeholder it names and changes nothing else |
| AgentTemplates.RenderLeavesNoPlaceholder | src/utils/fileOperations.js:172-175 | under the same conditions no placeholder is left in the result |
| AgentTemplates.FillHasNoBrace | src/utils/fileOperations.js:172-175 | a fully filled template holds no brace |
| AgentTemplates.ValuesBraceFree | src/utils/fileOperations.js:163-175 | an accepted name and brace-free metadata make every value brace-free |
| AgentTemplates.ValuesDollarFree | src/utils/fileOperations.js:163-175 | an accepted name and `$`-free metadata make every value `$`-free |
| AgentTemplates.NestedPlaceholderReassembles | src/utils/fileOperations.js:172-175 | `{AGENT_{AGENT_NAME}AME}` with name `N` becomes `{AGENT_NAME}`: without the brace-free condition a placeholder can survive |
| AgentTemplates.RenderInterleaved | src/utils/fileOperations.js:172-175 | text and the four placeholders in turn become the text with the name and the three values in between |
| AgentTemplates.ShowAppend | src/utils/fileOperations.js:172-175 | a template written out piece by piece distributes over concatenation |
| AgentTemplates.Expand | src/utils/fileOperations.js:172-175 | definition of GetSubstitution for a regular expression without groups: `$$`, `$&`, `` $` `` and `$'` expand, everything else is literal; its property is stated by `ExpandLiteral` |
| AgentTemplates.JsReplaceAll | src/utils/fileOperations.js:172-175 | definition of `replace` with a global pattern and a string value: each match left to right replaced by the expansion; compared with plain replacement by `JsReplaceAgrees` |
| AgentTemplates.RenderAsWritten | src/utils/fileOperations.js:172-175 | definition of the four replacements as written; compared with `Render` by `RenderAsWrittenAgrees` and `DollarDescriptionKeepsPlaceholder` |
| AgentTemplates.ExpandLiteral | src/utils/fileOperations.js:172-175 | a replacement value without `$` is inserted as it is |
| AgentTemplates.JsReplaceAgrees | src/utils/fileOperations.js:172-175 | without `$` in the value, JavaScript's replacement is plain global replacement |
| AgentTemplates.RenderAsWrittenAgrees | src/utils/fileOperations.js:172-175 | when no value holds `$`, the code as written renders as intended |
| AgentTemplates.DollarDescriptionKeepsPlaceholder | src/utils/fileOperations.js:173 | as written, description `$&` leaves `{DESCRIPTION}` in place; intended, it becomes `$&` |
| AgentValidation.ValidateAgent | src/utils/fileOperations.js:186-211 | the errors are the messages of the failed tests in order, and `valid` holds exactly when none failed |
| AgentValidation.ExpectedErrors | src/utils/fileOperations.js:187-205 | definition of the error list: the missing-file error alone, or the metadata error followed by one error per missing section; its properties are stated by `ErrorsCharacterized` and the section lemmas |
| AgentValidation.CheckSections | src/utils/fileOperations.js:200-205 | the section loop appends, after the earlier messages, one message per listed section the content lacks, in list order |
| AgentValidation.Messages | src/utils/fileOperations.js:188-203 | one message per error, position by position |
| AgentValidation.ErrorsCharacterized | src/utils/fileOperations.js:186-205 | a missing file gives exactly the missing-file error; otherwise the metadata error comes exactly when the file neither starts with `---` nor contains `name:`, a section error exactly for a listed section with neither heading, and at most four errors |
| AgentValidation.ValidIffComplete | src/utils/fileOperations.js:207-210 | a file is valid exactly when it exists, has metadata and has all three sections |
| AgentValidation.LevelThreeImpliesLevelTwo | src/utils/fileOperations.js:202 | the `### X` test never changes the outcome, since `### X` contains `## X` |
| AgentValidation.SectionErrorsMembership | src/utils/fileOperations.js:201-205 | a section error is reported exactly for a listed section that is missing |
| AgentValidation.SectionErrorsShape | src/utils/fileOperations.js:201-205 | no more section errors than listed sections, and every one names a listed, missing section |
| AgentValidation.SectionErrorsCount | src/utils/fileOperations.js:201-205 | a section is reported as many times as it is listed when it is missing, and never when present |
| AgentValidation.RequiredSectionsListedOnce | src/utils/fileOperations.js:200 | `Purpose`, `Duty` and `Instructions` are each listed once |
| AgentValidation.SectionReportedOnce | src/utils/fileOperations.js:199-205 | in the validator's errors each section is reported at most once |
| AgentValidation.HeadingPresent | src/utils/fileOperations.js:202 | a `## X` heading anywhere in the file counts as section X |
| AgentValidation.CompleteFileIsValid | src/utils/fileOperations.js:195-210 | a file with `---` first and the three headings is valid, whatever surrounds them |
| AgentValidation.NoHeadingsMissesAll | src/utils/fileOperations.js:200-205 | a file without `#` misses all three sections, reported in the order Purpose, Duty, Instructions |
| AgentFiles.FileSystem.CopyAgents | src/utils/fileOperations.js:63-81 | the loop ends with the store and error that `CopyAll` gives |
| AgentFiles.FileSystem.UpdateAgent | src/utils/fileOperations.js:140-152 | the new store and error are those of `UpdateOutcome` |
| AgentFiles.FileSystem.CreateCustomAgent | src/utils/fileOperations.js:161-179 | the four successive replacements, with JavaScript's `$` expansion, and the write give the store and error of `CreateOutcome` |
| AgentFiles.FileSystem.CopyProtocol | src/utils/fileOperations.js:88-100 | the new store and error are those of `ProtocolOutcome` |
| AgentFiles.CopyAll | src/utils/fileOperations.js:63-81 | definition of the copy loop's outcome: agent by agent, the name check, the template check and the overwrite, stopping at the first error; its properties are stated by the `CopyAll…` lemmas |
| AgentFiles.UpdateOutcome | src/utils/fileOperations.js:140-152 | definition of the update's outcome: name check, lookup, template check, overwrite; its properties are stated by `UpdateIsSingleCopy`, `UpdateChecksNameFirst` and `UnsupportedPlatformWritesNothing` |
| AgentFiles.CreateOutcome | src/utils/fileOperations.js:161-179 | definition of the create's outcome: name check, lookup, and the file written with the template rendered as written; its properties are stated by `CreateWritesOneFile`, `CreateFillsTemplate` and `CreateWithDollarDescription` |
| AgentFiles.ProtocolOutcome | src/utils/fileOperations.js:88-100 | definition of the protocol copy's outcome; its properties are stated by `ProtocolWritesOneFile` |
| AgentFiles.CopyAllSucceedsIff | src/utils/fileOperations.js:66-80 | the copy succeeds exactly when every agent has an accepted name and a bundled template |
| AgentFiles.CopyAllStopsAtFirstFailure | src/utils/fileOperations.js:68-76 | on failure the copy stopped at the first agent it could not install, with that agent's error, having installed exactly the agents before it |
| AgentFiles.CopyAllErrorIgnoresFiles | src/utils/fileOperations.js:66-80 | the error does not depend on what the store holds |
| AgentFiles.CopyAllKeepsPaths | src/utils/fileOperations.js:79 | a copy never removes a file |
| AgentFiles.CopyAllWritesOnlyAgentFiles | src/utils/fileOperations.js:66-80 | success or not, every changed path is one safe `<name>.md` segment inside the target, for one of the agents, holding that agent's template |
| AgentFiles.PathKeepsTemplate | src/utils/fileOperations.js:79 | a file that already holds its template keeps it through further copying |
| AgentFiles.CopyAllInstallsEvery | src/utils/fileOperations.js:66-80 | after a successful copy every agent's file holds its template |
| AgentFiles.CopyAllIdempotent | src/utils/fileOperations.js:79 | copying the same agents again leaves store and error unchanged |
| AgentFiles.CopyNothing | src/utils/fileOperations.js:66 | an empty list changes nothing and succeeds |
| AgentFiles.UpdateIsSingleCopy | src/utils/fileOperations.js:140-152 | on a valid platform, updating is copying the one agent into the platform's agents directory |
| AgentFiles.UpdateChecksNameFirst | src/utils/fileOperations.js:140-166 | for any platform, metadata, templates and template, a rejected name is reported before the platform is looked at, by update and by create, and nothing is written |
| AgentFiles.UnsupportedPlatformWritesNothing | src/utils/fileOperations.js:145-148 | an invalid platform stops update and create before the template check, and nothing is written: an inherited name with the `TypeError`, any other with the registry's message |
| AgentFiles.CreateWritesOneFile | src/utils/fileOperations.js:161-179 | a successful create adds or replaces exactly the agent's file, a safe segment in the agents directory, holding the template rendered as written, which is `Render` when no value holds `$` |
| AgentFiles.CreateFillsTemplate | src/utils/fileOperations.js:161-179 | with metadata free of `{` and `$` and a template whose braces all open placeholders, the created file is the template with every placeholder filled |
| AgentFiles.CreateWithDollarDescription | src/utils/fileOperations.js:173-178 | a description `$&` with the template `{DESCRIPTION}` writes `{DESCRIPTION}` back to the agent's file |
| AgentFiles.ProtocolWritesOneFile | src/utils/fileOperations.js:88-100 | the protocol copy fails exactly for an invalid platform, with the `TypeError` for an inherited name and the registry's message otherwise, writing nothing; otherwise it writes only `AGENTS_PROTOCOL.md` beside the agents directory |
| AgentFiles.ErrorMessages | src/utils/fileOperations.js:15-75 | the template error, both name errors, the unsupported-platform error and the `TypeError` carry the program's texts |

## Left out

- Real file-system behaviour: `existsSync`, `copy`, `readFile`, `writeFile` and `readdirSync` become a map of paths to contents, a map of template files and a map of listings. Read and write failures, permissions, symbolic links and directories are not modelled.
- `createDirectory` and `ensureDirSync` (src/utils/fileOperations.js:49-56), and the parent directories that `fs.copy` creates implicitly: a path in the map needs no directory entries.
- `async`/`await` and concurrency: each operation runs to completion as one step.
- `path.join` normalisation and operating-system separators: paths are sequences of segments, and home and cwd are parameters standing for `os.homedir()` and `process.cwd()`.
- The `__dirname` locations of the bundled templates: the template map, the custom-agent template and the protocol text are inputs.
- CreateCustomAgent: the template read at line 169 always succeeds in the model; a failed read is not modelled.
- ValidateAgent: existence and content are one `Option<string>` input, so a path that exists but cannot be read as a file (a directory) is not modelled.
- AgentExists: the name is used as given, as `agentExists` does; the model does not add sanitization. Since `path.join` normalisation is not modelled, a name holding `/` or `..` stays one literal segment `<name>.md` in the model, where the program would resolve it to another path (the command that calls `agentExists` passes a name that has not been sanitized).
- Metadata values that are not strings: `metadata.description || 'Custom agent'` is modelled for a missing or empty string only.
- The `TypeError` text is the wording of current Node.js releases; older engines word it differently.
- Strings are sequences of Unicode characters, not of UTF-16 code units; this matters only for the emoji in the registry.
- The commands, prompts, logger, command-line parsing and the name normalisation in `src/commands/create.js`: they are user-interface code around the core.
- CreateFillsTemplate: stated only for metadata without `$`, because the program's `replace` expands `$` patterns in the values (see Findings and CreateWithDollarDescription).
- RenderLeavesNoPlaceholder: stated only for templates whose braces all open placeholders and for brace-free values, because otherwise a placeholder can be reassembled (NestedPlaceholderReassembles).

## Findings

| source | as written | input that shows it | evidently intended | confidence | as-written member | corrected member |
|---|---|---|---|---|---|---|
| src/utils/fileOperations.js:172-175 | `String.prototype.replace` with a string value expands `$&`, `$$`, `` $` `` and `$'` in the metadata values | description `$&` with the template `{DESCRIPTION}` leaves `{DESCRIPTION}` in the file | each placeholder replaced by the value literally | not executed | AgentTemplates.DollarDescriptionKeepsPlaceholder | AgentTemplates.RenderFillsSlots |
| src/utils/platforms.js:44-50, 73-75 | `platformId in PLATFORMS` and `PLATFORMS[platformId]` also find names inherited from `Object.prototype` | platform `toString` passes `isValidPlatform`, the lookup returns a function instead of throwing, and the path operations then throw a `TypeError` | only the table's own keys are platforms | not executed | Platforms.InheritedNameAcceptedAsWritten | Platforms.ValidIffLookupSucceeds |

The file operations keep the behaviour as written, so that their contracts
describe what the program does: `CreateWithDollarDescription` shows the first
discrepancy in a created file, and `InheritedNameFailsAtSplit` shows the second
in the path operations. The corrected definitions (`Render`, `GetPlatformConfig`,
`IsValidPlatform`) carry the intended properties, and `RenderAsWrittenAgrees`
and `AsWrittenAgreesOffPrototype` say on which inputs the two coincide.

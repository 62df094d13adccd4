# ansible-hpc repository analyzer and Copilot integration, in Dafny

This project models the static-analysis pipeline of the ansible-hpc repository and proves its
contracts. The pipeline has two parts:

- **`RepoAnalyzer`** (`scripts/repo_analyzer.py`).
  - Six detection rules walk the `roles/` tree of the repository: role structure, documentation,
    best practices, testing, security and dependencies.
  - Each rule appends suggestion records to a single list through `add_suggestion`, which numbers
    them 1, 2, 3, … and dates them.
  - `analyze` runs the rules in a fixed order and returns the list filtered by role (a
    substring of a file path) and by category (exact match). With no filter set, it returns
    the list itself.
  - `generate_output` groups the suggestions by category, in the order the categories first
    appear, and sorts each group by priority.
- **`CopilotIntegration`** (`scripts/copilot_integration.py`).
  - It takes the analyzer's suggestions and, for each one in order, writes a prompt document
    `prompt_<n>.md`.
  - Outside a dry run, it also writes a canned improvement draft `improvement_<n>.md`. The draft
    is chosen by the exact category, then by keywords in the title or the description.

## How the model is organised

- `strings.dfy` (module `Strings`): `Option`, Python truthiness, ASCII character classes,
  `lower`/`upper`, substring tests (`Contains`, `OccursAt`), `join`, and `str(n)`.
- `repo_tree.dfy` (module `RepoTree`): the repository as an immutable snapshot. It holds the
  roles in listing order, the directories, the regular files with their text (or a decoding
  failure), directory listings and `os.walk` results. `ReadFile` stands for
  `open(...).read()` and its three outcomes.
- `patterns.dfy` (module `Patterns`): each regular expression of the analyzer, written out as a
  predicate that holds exactly when `re.search` finds a match. The URL pattern is written as the
  list `re.findall` returns.
- `suggestions.dfy` (module `Suggestions`): the finding and suggestion records, the numbering of
  `add_suggestion` (`Stamp`), and the role and category filters.
- `messages.dfy` (module `Messages`): the fixed wording of every suggestion.
- `rules.dfy` (module `Rules`): the six rules as functions of the snapshot.
  - A rule yields its findings and whether an exception escaped it (`RuleResult.raised`).
  - Each loop of the source is a function recursive on the last element: `Sweep`, `StructurePass`
    and the like.
- `reporting.dfy` (module `Reporting`): the priority rank, the stable sort, first-seen grouping,
  the sections a renderer prints, and the output of `generate_output` as a datatype.
- `analyzer.dfy` (module `Analyzer`): the class `RepoAnalyzer`.
  - Its `suggestions` field is updated by `AddSuggestion`.
  - Every loop of the source is a `while` loop. Each is proved against the rule function for
    the part already processed.
  - `RunAnalyzer` is the script's `main`.
- `drafts.dfy` (module `Drafts`): `_call_copilot` and its three helpers as pure functions. A
  draft is a list of paragraphs, and `ParagraphText` gives each paragraph's exact text.
- `copilot.dfy` (module `Copilot`): the class `CopilotIntegration`.
  - `CreatePrompt` builds the prompt in a loop, proved equal to the function `Prompt`.
  - `GenerateImprovements` is proved equal to the function `Generate`. Its result lists the
    files written, as (path, text) artifacts; the returned improvements; and whether the run
    raised.
  - `RunCopilot` is the script's `main`.

Exceptions are modelled explicitly. A rule reads some files without a `try`; when such a read
raises, the rule's result has `raised` set, the suggestions added before the exception stay in the
list, and no later rule runs. Such reads occur in the documentation and best-practices rules, in
`open` on a path that is not a regular file, and in `os.listdir` on a path that is not a directory.
The security and dependency rules catch decoding errors and skip the file, as the source does.

## Model

| member | source | states |
|---|---|---|
| `Strings.Lower` | scripts/copilot_integration.py:158 | `str.lower()` keeps the length, maps every ASCII capital to its small letter and keeps every other character |
| `Strings.Upper` | scripts/copilot_integration.py:85 | `str.upper()` keeps the length, maps every ASCII small letter to its capital and keeps every other character |
| `Strings.NatToString` | scripts/copilot_integration.py:57 | `str(n)` is a non-empty string of decimal digits |
| `Strings.NatToStringInjective` | scripts/copilot_integration.py:57 | different suggestion numbers give different decimal forms, so the names `prompt_<n>.md` never collide |
| `Strings.ContainsLower` | scripts/copilot_integration.py:184-187 | a lower-case keyword that occurs in a text still occurs after the text is lower-cased |
| `Strings.JoinContains` | scripts/repo_analyzer.py:103 | every item of `', '.join(items)` occurs in the joined text |
| `RepoTree.ReadFile` | scripts/copilot_integration.py:95-101 | in the snapshot, opening a path fails exactly when it is not a regular file; otherwise the read gives its text or a decoding error |
| `RepoTree.ListDir` | scripts/repo_analyzer.py:191 | `os.listdir` gives a listing exactly when the path is a directory |
| `Patterns.SchemeLength` | scripts/repo_analyzer.py:331 | `https?://` matches with length 8, 7 or not at all, within the text |
| `Patterns.RunEnd` | scripts/repo_analyzer.py:331 | `[^\s"')]+` extends to the first character outside the class, or to the end of the text |
| `Patterns.UrlsFrom` | scripts/repo_analyzer.py:331-341 | every string `re.findall` returns for the URL pattern is a scheme followed by one or more URL characters |
| `Suggestions.MakeSuggestion` | scripts/repo_analyzer.py:359-367 | the record carries the finding's five fields unchanged, the given id and the date |
| `Suggestions.Stamp` | scripts/repo_analyzer.py:357-368 | numbering a batch of findings gives one record per finding |
| `Suggestions.StampAppend` | scripts/repo_analyzer.py:357-368 | numbering two batches in turn equals numbering their concatenation |
| `Suggestions.StampKeepsDense` | scripts/repo_analyzer.py:360 | appending through `add_suggestion` keeps ids exactly 1..N in list order, leaves earlier records unchanged and copies each finding unchanged |
| `Suggestions.StampShift` | scripts/repo_analyzer.py:360 | the same findings numbered after n earlier records are the same records with every id moved up by n |
| `Suggestions.FilterByRole` | scripts/repo_analyzer.py:77-79 | the role filter keeps exactly the suggestions some file path of which contains the role as a substring |
| `Suggestions.FilterByCategory` | scripts/repo_analyzer.py:82-84 | the category filter keeps exactly the suggestions whose category equals the given one |
| `Suggestions.FiltersCommute` | scripts/repo_analyzer.py:76-84 | applying the role filter then the category filter gives the same list as the opposite order |
| `Suggestions.MainFiltersAgree` | scripts/repo_analyzer.py:484-491 | `main`'s in-place filtering (category first, then role) leaves the same list as the filters of `analyze` |
| `Suggestions.RoleFilterMatchesLongerName` | scripts/repo_analyzer.py:77-79 | the role filter tests substrings, so filtering by a role also keeps suggestions about every role whose name starts with it (`slurm` keeps `slurm_gpu`) |
| `Rules.Then` | scripts/repo_analyzer.py:64-71 | running one rule after another raises when either raises and, once the first raises, keeps only the first one's findings |
| `Rules.SweepFacts` | scripts/repo_analyzer.py:92 | a rule's loop raises exactly when some iteration raises, and it reports only what its iterations report |
| `Rules.SweepStops` | scripts/repo_analyzer.py:92 | once an iteration has raised, the rest of the loop does not run |
| `Rules.SweepBound` | scripts/repo_analyzer.py:283-306 | iterations that add at most n findings each add at most n per element in all |
| `Rules.MissingDirs` | scripts/repo_analyzer.py:98 | the missing list holds exactly the standard directories that are not directories of the role |
| `Rules.MissingDirsFinding` | scripts/repo_analyzer.py:100-107 | the missing-directories finding has a known category and priority and one path |
| `Rules.MissingReadmeFinding` | scripts/repo_analyzer.py:111-118 | the missing-README finding has a known category and priority and one path |
| `Rules.MissingMetaFinding` | scripts/repo_analyzer.py:123-130 | the missing-meta finding has a known category and priority and one path |
| `Rules.MissingDirsCheck` | scripts/repo_analyzer.py:97-107 | a role yields one medium `role_completeness` finding on the role directory exactly when some standard directory is missing |
| `Rules.MissingReadmeCheck` | scripts/repo_analyzer.py:109-118 | a role yields one high `documentation` finding on the role directory exactly when its README.md does not exist |
| `Rules.MissingMetaCheck` | scripts/repo_analyzer.py:120-130 | a role yields one medium `role_completeness` finding on the role directory exactly when `meta/main.yml` does not exist |
| `Rules.StructureForRole` | scripts/repo_analyzer.py:93-130 | the structure findings of a role are all well formed |
| `Rules.StructureFindingCount` | scripts/repo_analyzer.py:97-130 | the three structure checks are never merged: a role yields one finding per failed check, at most three |
| `Rules.StructureFindingKinds` | scripts/repo_analyzer.py:100-130 | every structure finding names the role directory and is either high `documentation` or medium `role_completeness` |
| `Rules.StructureDocumentationIff` | scripts/repo_analyzer.py:109-118 | the structure rule reports on documentation exactly when the role has no README.md |
| `Rules.StructurePass` | scripts/repo_analyzer.py:88-130 | the structure rule yields well-formed findings, at most three per role |
| `Rules.MissingSections` | scripts/repo_analyzer.py:141-147 | the missing sections are exactly the listed headings that the text lacks |
| `Rules.MainReadmeFinding` | scripts/repo_analyzer.py:150-156 | the main-README finding has a known category and priority and one path |
| `Rules.MainReadmeCheck` | scripts/repo_analyzer.py:134-156 | the main-README check yields at most one finding, well formed; it raises exactly when README.md exists and does not read as text |
| `Rules.ListNamesSections` | scripts/repo_analyzer.py:149-156 | a section list joined with `, ` after a lead names every section in it |
| `Rules.MainReadmeCheckIff` | scripts/repo_analyzer.py:134-156 | there is a main-README finding exactly when README.md exists, reads as text and lacks one of `Requirements`, `Installation`, `Usage` as a heading |
| `Rules.MainReadmeCheckKind` | scripts/repo_analyzer.py:149-156 | that finding is a medium `documentation` one on README.md whose description lists the missing headings in order and names each of them |
| `Rules.RoleReadmeCheckIff` | scripts/repo_analyzer.py:159-183 | there is a role-README finding exactly when the role's README.md exists, reads as text and lacks one of the four role headings |
| `Rules.RoleReadmeCheckKind` | scripts/repo_analyzer.py:176-183 | that finding is a medium `documentation` one on the role's README.md whose description lists the missing headings in order and names each of them |
| `Rules.RoleReadmeFinding` | scripts/repo_analyzer.py:177-183 | the role-README finding has a known category and priority and one path |
| `Rules.RoleReadmeCheck` | scripts/repo_analyzer.py:159-183 | a role's README check yields at most one finding, well formed; it raises exactly when that README.md exists and does not read as text |
| `Rules.Documentation` | scripts/repo_analyzer.py:132-183 | the documentation rule yields well-formed findings |
| `Rules.DocumentationFacts` | scripts/repo_analyzer.py:132-183 | the documentation rule raises exactly when the main or some role's README check raises; every finding is a medium `documentation` one on the main README.md or on some role's README.md |
| `Rules.HardcodedIpFinding` | scripts/repo_analyzer.py:202-209 | the hard-coded-IP finding has a known category and priority and one path |
| `Rules.HardcodedPortFinding` | scripts/repo_analyzer.py:214-221 | the hard-coded-port finding has a known category and priority and one path |
| `Rules.HardcodedFindings` | scripts/repo_analyzer.py:197-221 | a task file's text yields one high `best_practices` finding exactly when it has a dotted quad, and one medium finding exactly when it has a port and no `:{{…}}` anywhere, so up to two findings on that file |
| `Rules.HardcodedInFile` | scripts/repo_analyzer.py:191-195 | one entry of the tasks directory yields at most two well-formed findings |
| `Rules.HardcodedInRole` | scripts/repo_analyzer.py:189-195 | the hard-coded-value scan of a role yields well-formed findings |
| `Rules.HardcodedInRoleKind` | scripts/repo_analyzer.py:189-221 | every finding of that scan is a high or medium `best_practices` one on a file of the role's tasks directory |
| `Rules.HardcodedAtMostTwoPerFile` | scripts/repo_analyzer.py:191-221 | the scan of a tasks directory yields at most two findings per entry |
| `Rules.IpAndPortExample` | scripts/repo_analyzer.py:198-221 | a task line with an IP address and `:8080` and no template yields exactly two findings, high then medium |
| `Rules.NoTemplateWithoutBrace` | scripts/repo_analyzer.py:213 | without a `{` in the file, no `:{{…}}` excuses a port |
| `Rules.TagsFinding` | scripts/repo_analyzer.py:232-239 | the missing-tags finding has a known category and priority and one path |
| `Rules.TagsInRole` | scripts/repo_analyzer.py:224-239 | the tags check of a role yields at most one finding, well formed; it raises exactly when `tasks/` and `tasks/main.yml` exist and the file does not read as text |
| `Rules.TagsInRoleIff` | scripts/repo_analyzer.py:224-239 | there is a tags finding exactly when `tasks/` and `tasks/main.yml` exist, the file reads as text and has no `tags:` in it |
| `Rules.TagsInRoleKind` | scripts/repo_analyzer.py:232-239 | that finding is the low `best_practices` one on `tasks/main.yml` |
| `Rules.BestPractices` | scripts/repo_analyzer.py:185-239 | the best-practices rule yields well-formed findings |
| `Rules.HardcodedSweepKind` | scripts/repo_analyzer.py:187-221 | the hard-coded-value loop over the roles yields only high or medium `best_practices` findings on task files of some role |
| `Rules.TagsSweepKind` | scripts/repo_analyzer.py:223-239 | the tags loop over the roles yields only the low tags findings of some role |
| `Rules.BestPracticesFacts` | scripts/repo_analyzer.py:185-239 | the best-practices rule raises exactly when some role's hard-coded-value scan or tags check raises; every finding is a `best_practices` one; the low ones are tags findings of some role; the others are high or medium findings on task files |
| `Rules.DedicatedTestsFinding` | scripts/repo_analyzer.py:251-258 | the missing-tests finding has a known category and priority and one path |
| `Rules.MoleculeFinding` | scripts/repo_analyzer.py:264-271 | the missing-Molecule finding has a known category and priority and one path |
| `Rules.DedicatedTestsForRole` | scripts/repo_analyzer.py:245-258 | the test-file check of a role yields exactly one finding, a high `testing` one on the role directory, when neither test file exists, and none otherwise |
| `Rules.MoleculeForRole` | scripts/repo_analyzer.py:262-271 | the Molecule check of a role yields exactly one finding, a medium `testing` one on the role directory, when `molecule` does not exist, and none otherwise |
| `Rules.DedicatedTestsPass` | scripts/repo_analyzer.py:244-258 | the test-file loop yields at most one finding per role, all high `testing` ones |
| `Rules.MoleculePass` | scripts/repo_analyzer.py:261-271 | the Molecule loop yields at most one finding per role, all medium `testing` ones |
| `Rules.DedicatedTestsReported` | scripts/repo_analyzer.py:244-258 | the test-file loop reports every role of the list that lacks both test files |
| `Rules.MoleculeReported` | scripts/repo_analyzer.py:261-271 | the Molecule loop reports every role of the list that lacks `molecule` |
| `Rules.Testing` | scripts/repo_analyzer.py:241-271 | the testing rule yields well-formed `testing` findings, high or medium, with every high one before every medium one |
| `Rules.TestingReportsRole` | scripts/repo_analyzer.py:241-271 | the testing rule reports each role without either test file, and each role without `molecule` |
| `Rules.SecretFinding` | scripts/repo_analyzer.py:295-302 | the sensitive-information finding has a known category and priority and one path |
| `Rules.SecretsInFile` | scripts/repo_analyzer.py:286-306 | a walked file yields at most one critical `security` finding, exactly when its name ends in `.yml`/`.yaml`/`.j2`, it reads as text and some sensitive pattern matches; an undecodable file yields nothing; the rule raises only when such a name cannot be opened |
| `Rules.SecretsInRole` | scripts/repo_analyzer.py:284-306 | every finding of a role's walk is critical `security` |
| `Rules.SecretsAtMostOnePerFile` | scripts/repo_analyzer.py:292-303 | because the pattern loop breaks at the first match, a role yields at most one finding per walked file |
| `Rules.Security` | scripts/repo_analyzer.py:273-306 | the security rule yields only well-formed critical `security` findings |
| `Rules.PinFinding` | scripts/repo_analyzer.py:319-326 | the pinning finding has a known category and priority and one path |
| `Rules.PinningInRole` | scripts/repo_analyzer.py:312-328 | the pinning check of a role yields at most one finding and raises exactly when `meta/main.yml` exists but is not a regular file |
| `Rules.PinningInRoleIff` | scripts/repo_analyzer.py:313-318 | there is a pinning finding exactly when `meta/main.yml` reads as text that contains `dependencies:` and no quoted `version:` |
| `Rules.PinningInRoleKind` | scripts/repo_analyzer.py:319-326 | the pinning finding is medium `maintenance` on `meta/main.yml` |
| `Rules.ReleaseUrls` | scripts/repo_analyzer.py:342-344 | the release URLs are exactly the URLs that contain both `github.com` and `/releases/download/` |
| `Rules.ReleaseUrlFinding` | scripts/repo_analyzer.py:346-353 | the release-URL finding has a known category and priority and one path |
| `Rules.ReleaseUrlFindings` | scripts/repo_analyzer.py:342-353 | a file yields one finding per release URL in it, not one per file, in URL order, each a low `maintenance` one on that file |
| `Rules.ReleaseUrlsInFile` | scripts/repo_analyzer.py:336-355 | a walked file raises exactly when its name ends in `.yml`, `.yaml`, `.md` or `.j2` and it is not a regular file; its findings are the release-URL findings of its text when it is scanned and reads as text, and none otherwise; each is low `maintenance` on that file |
| `Rules.ReleaseUrlsInRole` | scripts/repo_analyzer.py:332-355 | the URL scan of a role yields well-formed findings |
| `Rules.ReleaseUrlsInRoleFacts` | scripts/repo_analyzer.py:332-355 | the URL walk of a role raises exactly when some walked file is scanned and is not a regular file; every finding is low `maintenance` on one of the walked files |
| `Rules.Dependencies` | scripts/repo_analyzer.py:308-355 | the dependency rule yields well-formed findings |
| `Rules.PinningSweepKind` | scripts/repo_analyzer.py:310-328 | the pinning loop over the roles yields only medium `maintenance` findings on some role's `meta/main.yml` |
| `Rules.ReleaseUrlSweepKind` | scripts/repo_analyzer.py:330-355 | the URL loop over the roles yields only low `maintenance` findings |
| `Rules.DependenciesFacts` | scripts/repo_analyzer.py:308-355 | the dependency rule raises exactly when some role's pinning check or URL walk raises; every finding is `maintenance`, medium or low; the medium ones are on some role's `meta/main.yml` |
| `Rules.Analysis` | scripts/repo_analyzer.py:64-71 | the six rules in order yield findings with a known category and priority and exactly one path each |
| `Rules.NoPerformanceFindings` | scripts/repo_analyzer.py:26-34 | no rule emits the `performance` category, although `CATEGORIES` lists it |
| `Reporting.Rank` | scripts/repo_analyzer.py:404-405 | the rank is below 4 exactly for the four known priorities, and 4 for any other value |
| `Reporting.WithRank` | scripts/repo_analyzer.py:405 | the entries of one rank are exactly the list's entries with that rank |
| `Reporting.RanksFrom` | scripts/repo_analyzer.py:405 | the rank-by-rank concatenation is sorted by rank |
| `Reporting.SortIsPermutation` | scripts/repo_analyzer.py:405 | the priority sort neither drops nor duplicates an entry |
| `Reporting.SortIsStable` | scripts/repo_analyzer.py:405 | the priority sort keeps entries of equal rank in their original order |
| `Reporting.SortIsOrdered` | scripts/repo_analyzer.py:404-405 | after the sort, ranks never decrease along a group: critical, high, medium, low, then any other priority |
| `Reporting.FirstSeenSpec` | scripts/repo_analyzer.py:392-397 | the keys of `by_category` are every category of the list and nothing else, each once |
| `Reporting.AddToGroup` | scripts/repo_analyzer.py:394-397 | adding a suggestion appends it to its own category's list, creating that list when new, and leaves every other key as it was |
| `Reporting.GroupMapStep` | scripts/repo_analyzer.py:393-397 | one more iteration of the grouping loop keeps the dictionary equal to the grouping of the list so far |
| `Reporting.GroupsPartition` | scripts/repo_analyzer.py:392-400 | the groups together hold every suggestion of the list exactly as often as the list does |
| `Reporting.CategoryLabel` | scripts/repo_analyzer.py:401 | a category's heading is its `CATEGORIES` label, or the category itself when it is not listed |
| `Reporting.Sections` | scripts/repo_analyzer.py:400-411 | there is one section per category of the list |
| `Reporting.SectionsSpec` | scripts/repo_analyzer.py:400-411 | each section is one category, in first-seen order, with its label and exactly that category's suggestions, sorted by rank with ties in list order |
| `Reporting.RenderEmpty` | scripts/repo_analyzer.py:372-374 | an empty list prints only the empty message, whatever the format, and no GitHub note |
| `Reporting.RenderNonEmpty` | scripts/repo_analyzer.py:376-384 | a non-empty list never prints the empty message; the totals are the list length; JSON lists the suggestions in order with the analysis time; nothing is printed for an unknown format; the GitHub note follows exactly when enabled |
| `Analyzer.RepoAnalyzer.constructor` | scripts/repo_analyzer.py:39-47 | a new analyzer has the given settings, an empty list and no filters |
| `Analyzer.RepoAnalyzer.AddSuggestion` | scripts/repo_analyzer.py:357-368 | the new record gets id = length + 1 and is appended; the records already there are unchanged, so dense ids stay dense |
| `Analyzer.RepoAnalyzer.AddFinding` | scripts/repo_analyzer.py:357-368 | a rule's call of `add_suggestion` extends the numbered batch by its finding |
| `Analyzer.RepoAnalyzer.CheckStandardDirs` | scripts/repo_analyzer.py:93-107 | the list grows by the role's missing-directories finding, if any |
| `Analyzer.RepoAnalyzer.CheckRoleReadmeExists` | scripts/repo_analyzer.py:109-118 | the list grows by the role's missing-README finding, if any |
| `Analyzer.RepoAnalyzer.CheckMetaMain` | scripts/repo_analyzer.py:120-130 | the list grows by the role's missing-meta finding, if any |
| `Analyzer.RepoAnalyzer.CheckRoleStructure` | scripts/repo_analyzer.py:93-130 | the list grows by the three structure checks of one role, in order |
| `Analyzer.RepoAnalyzer.AnalyzeRoleStructure` | scripts/repo_analyzer.py:88-130 | the list grows by the structure findings of every role, numbered on |
| `Analyzer.RepoAnalyzer.CheckMainReadme` | scripts/repo_analyzer.py:134-156 | the top-level README check adds its finding, and raises exactly as the rule function says |
| `Analyzer.RepoAnalyzer.CheckRoleReadme` | scripts/repo_analyzer.py:160-183 | a role's README check adds its finding, and raises exactly as the rule function says |
| `Analyzer.RepoAnalyzer.CheckRoleReadmes` | scripts/repo_analyzer.py:158-183 | the loop over the role READMEs adds their findings and stops at the first exception |
| `Analyzer.RepoAnalyzer.AnalyzeDocumentation` | scripts/repo_analyzer.py:132-183 | the list grows by the documentation rule's findings; it raises exactly when the rule does |
| `Analyzer.RepoAnalyzer.AddHardcodedFindings` | scripts/repo_analyzer.py:197-221 | the IP and port tests on a task file's text add exactly the findings of that text, the IP finding first |
| `Analyzer.RepoAnalyzer.CheckTaskFile` | scripts/repo_analyzer.py:192-221 | one tasks-directory entry adds its IP and port findings; a failed read raises |
| `Analyzer.RepoAnalyzer.CheckTaskFiles` | scripts/repo_analyzer.py:191-221 | the loop over a tasks listing adds the findings of each entry and stops at the first exception |
| `Analyzer.RepoAnalyzer.CheckRoleTasks` | scripts/repo_analyzer.py:189-221 | the tasks directory of a role is scanned when it exists; listing a path that is not a directory raises |
| `Analyzer.RepoAnalyzer.CheckHardcodedValues` | scripts/repo_analyzer.py:188-221 | the first best-practices loop adds the hard-coded-value findings of every role |
| `Analyzer.RepoAnalyzer.CheckTags` | scripts/repo_analyzer.py:225-239 | the tags check of one role adds its finding; a failed read raises |
| `Analyzer.RepoAnalyzer.CheckRolesTags` | scripts/repo_analyzer.py:224-239 | the second best-practices loop adds the tags findings of every role |
| `Analyzer.RepoAnalyzer.AnalyzeBestPractices` | scripts/repo_analyzer.py:185-239 | the list grows by the best-practices rule's findings; it raises exactly when the rule does |
| `Analyzer.RepoAnalyzer.CheckDedicatedTests` | scripts/repo_analyzer.py:245-258 | the list grows by the role's missing-tests finding, if any |
| `Analyzer.RepoAnalyzer.CheckMolecule` | scripts/repo_analyzer.py:262-271 | the list grows by the role's missing-Molecule finding, if any |
| `Analyzer.RepoAnalyzer.AnalyzeTesting` | scripts/repo_analyzer.py:241-271 | the list grows by the test-file findings of every role, then the Molecule findings of every role |
| `Analyzer.RepoAnalyzer.ScanForSecrets` | scripts/repo_analyzer.py:292-303 | the pattern loop adds exactly one finding when some sensitive pattern matches, and none otherwise |
| `Analyzer.RepoAnalyzer.CheckFileForSecrets` | scripts/repo_analyzer.py:286-306 | one walked file adds its finding; a decoding error is skipped and an `open` failure raises |
| `Analyzer.RepoAnalyzer.CheckWalkForSecrets` | scripts/repo_analyzer.py:285-306 | the walk of one role adds the findings of each file in walk order |
| `Analyzer.RepoAnalyzer.CheckRolesForSecrets` | scripts/repo_analyzer.py:283-306 | the loop over the roles adds every role's security findings and stops at the first exception |
| `Analyzer.RepoAnalyzer.AnalyzeSecurity` | scripts/repo_analyzer.py:273-306 | the list grows by the security rule's findings; it raises exactly when the rule does |
| `Analyzer.RepoAnalyzer.CheckPinning` | scripts/repo_analyzer.py:312-328 | the pinning check of one role adds its finding; a decoding error is skipped and an `open` failure raises |
| `Analyzer.RepoAnalyzer.CheckRolesPinning` | scripts/repo_analyzer.py:311-328 | the first dependency loop adds the pinning findings of every role |
| `Analyzer.RepoAnalyzer.CheckUrl` | scripts/repo_analyzer.py:342-353 | one URL adds a finding exactly when it is a GitHub release URL |
| `Analyzer.RepoAnalyzer.CheckUrls` | scripts/repo_analyzer.py:341-353 | the URL loop of one file adds one finding per release URL, in order |
| `Analyzer.RepoAnalyzer.CheckFileUrls` | scripts/repo_analyzer.py:336-355 | one walked file adds its URL findings; a decoding error is skipped and an `open` failure raises |
| `Analyzer.RepoAnalyzer.CheckWalkUrls` | scripts/repo_analyzer.py:334-355 | the walk of one role adds the URL findings of each file |
| `Analyzer.RepoAnalyzer.CheckRolesUrls` | scripts/repo_analyzer.py:332-355 | the second dependency loop adds the URL findings of every role |
| `Analyzer.RepoAnalyzer.AnalyzeDependencies` | scripts/repo_analyzer.py:308-355 | the list grows by the dependency rule's findings; it raises exactly when the rule does |
| `Analyzer.RepoAnalyzer.Analyze` | scripts/repo_analyzer.py:64-86 | the list grows by the findings of the six rules in order, numbered on; the call raises exactly when a rule does; otherwise it returns the list as filtered by role and category, and keeps the list itself unfiltered |
| `Analyzer.RepoAnalyzer.GroupByCategory` | scripts/repo_analyzer.py:392-397 | `by_category` has a key per category in first-seen order, holding that category's suggestions in list order |
| `Analyzer.RepoAnalyzer.BuildSections` | scripts/repo_analyzer.py:399-411 | the renderer's sections are the first-seen groups, each sorted by priority |
| `Analyzer.RepoAnalyzer.GenerateOutput` | scripts/repo_analyzer.py:370-384 | the output is the empty message for an empty list, else the report of the chosen format, plus the GitHub note when enabled |
| `Analyzer.RunAnalyzer` | scripts/repo_analyzer.py:465-500 | `main` either crashes in the analysis or prints the output over the analysis filtered as `analyze` would filter it, to the output file when one is named |
| `Drafts.DocumentationDraft` | scripts/copilot_integration.py:129-152 | the documentation draft fails exactly when there is no file path |
| `Drafts.CallCopilot` | scripts/copilot_integration.py:109-127 | `_call_copilot` raises exactly for a documentation suggestion without file paths |
| `Drafts.DraftStartsWithTitle` | scripts/copilot_integration.py:115 | every draft's text starts with `# Improvement for: <title>` |
| `Drafts.OtherCategoryPlaceholder` | scripts/copilot_integration.py:123-125 | any category other than the three drafted ones, matched exactly, gets only the heading and the placeholder |
| `Drafts.PlaceholderNamesCategory` | scripts/copilot_integration.py:124 | the placeholder names the category |
| `Drafts.DraftedCategoryDispatch` | scripts/copilot_integration.py:117-122 | the three drafted categories each get their own helper's paragraphs after the heading |
| `Drafts.DocumentationDraftIff` | scripts/copilot_integration.py:131-152 | the documentation draft holds the README skeleton exactly when the first file path contains `README.md`; otherwise it is the heading alone |
| `Drafts.BestPracticesDraftIff` | scripts/copilot_integration.py:156-178 | the best-practices draft holds the snippet exactly when the lower-cased title contains `hardcoded`; otherwise it is the heading alone |
| `Drafts.CompletenessDraftGate` | scripts/copilot_integration.py:182-184 | the role-completeness draft goes beyond its heading exactly when the lower-cased description contains `missing standard directories` |
| `Drafts.CompletenessDraftStub` | scripts/copilot_integration.py:184-231 | past that phrase, the draft has a directory's stub exactly when the directory's name occurs anywhere in the lower-cased description |
| `Drafts.MissingDirsDraft` | scripts/copilot_integration.py:180-233 | the draft of a missing-directories finding always gets past the phrase and has a stub for every missing directory that has one |
| `Drafts.OnlyTasksUndrafted` | scripts/copilot_integration.py:184-231 | of the six standard directories, only `tasks` never gets a stub |
| `Copilot.PromptLayout` | scripts/copilot_integration.py:83-107 | the prompt gives the title, the upper-cased priority, the category and the description at increasing offsets, then the file list heading, and it always ends with the Task section |
| `Copilot.FileEntryCases` | scripts/copilot_integration.py:90-101 | each path gets its list line; a regular file adds its text, a read failure adds the error note with the message, and any other path adds nothing |
| `Copilot.PromptListsEveryPath` | scripts/copilot_integration.py:90-101 | the prompt holds the entry of every file path, one after another in list order |
| `Copilot.DryRunWritesPrompts` | scripts/copilot_integration.py:50-59 | a dry run writes exactly `prompt_1`..`prompt_N`, in order, each with its suggestion's prompt, and returns nothing |
| `Copilot.NormalRunWritesPairs` | scripts/copilot_integration.py:50-75 | outside a dry run, when every suggestion has a draft, `prompt_k` and `improvement_k` are written in pairs, and each returned record pairs the suggestion with its draft and its prompt file |
| `Copilot.NormalRunCrashIff` | scripts/copilot_integration.py:62-63 | outside a dry run, the loop raises exactly when some suggestion has no draft |
| `Copilot.LoopStaysCrashed` | scripts/copilot_integration.py:50-79 | once a suggestion raises, the later ones are not processed |
| `Copilot.DraftOfNone` | scripts/copilot_integration.py:133 | the draft's text is missing exactly for a documentation suggestion without file paths |
| `Copilot.ArtifactPathsDistinct` | scripts/copilot_integration.py:57-71 | no two files of a run share a path |
| `Copilot.CopilotIntegration.constructor` | scripts/copilot_integration.py:25-28 | the token is the argument when it is non-empty, else the environment's; the analyzer is new, with JSON output, an empty list and no filters |
| `Copilot.CopilotIntegration.GetSuggestions` | scripts/copilot_integration.py:30-39 | each filter is set only when its argument is non-empty; the list grows by a new analysis; the result is the list as `analyze` filters it |
| `Copilot.CopilotIntegration.CreatePrompt` | scripts/copilot_integration.py:81-107 | the prompt built step by step is the prompt of the suggestion |
| `Copilot.CopilotIntegration.GenerateImprovements` | scripts/copilot_integration.py:41-79 | the files written and the records returned are those of the generation loop, in the default or the given output directory |
| `Copilot.RunCopilot` | scripts/copilot_integration.py:235-257 | `main` crashes when the analysis raises, stops with "No suggestions found." when the filtered list is empty, and otherwise generates over that list |
| `Copilot.DraftsWithFilesNeverCrash` | scripts/copilot_integration.py:133 | suggestions that each name a file never make drafting raise |
| `Copilot.SuggestionsNameOneFile` | scripts/repo_analyzer.py:357-368 | numbering and filtering keep each finding's single file path |
| `Copilot.RunNeverCrashesDrafting` | scripts/copilot_integration.py:250-257 | every suggestion `main` drafts names exactly one file, so its drafting never raises |
| `Copilot.SecondCallDuplicates` | scripts/repo_analyzer.py:43 | a second `get_suggestions` on the same object appends the same records again, numbered N+1..2N, and the ids stay dense |

## Left out

- The filesystem is an immutable snapshot. Nothing in the model enforces that its parts agree
  with each other, for instance that `roles` lists exactly the directories under `roles/` or
  that a walk lists the files that exist. A consistent snapshot is the caller's business.
- `_get_roles` is not modelled as a call: the role list is part of the snapshot. A missing
  `roles/` directory, which makes the constructor raise, is not modelled.
- `_get_playbooks` is not modelled; no rule uses its result.
- Character classes, `re.IGNORECASE`, `str.lower()` and `str.upper()` cover the ASCII range
  only; there `\s` includes U+001C to U+001F as Python's does. Python also matches non-ASCII
  digits, white space (such as U+0085 and U+00A0) and case pairs.
- `os.path.relpath` is simplified to stripping the root and a slash. A path outside the root is
  kept as given, where Python would produce `..` steps.
- `os.path.join` is modelled only for relative second parts, which is all the source passes.
- The date of `add_suggestion` is one value for the whole run (`today`). The timestamps of the
  JSON and Markdown reports are a parameter (`now`).
- Printed text is not modelled. This covers the console and Markdown layout, `json.dumps`, the
  progress messages of `generate_improvements`, the "No suggestions found." message (only the
  way `main` stops is), the GitHub-issues stub, and redirecting standard output.
- Command-line parsing is replaced by the parameters of `RunAnalyzer` and `RunCopilot`.
- The exception messages are only the decoding-error reason that the prompt quotes. Which
  exception escapes a rule is not distinguished; only that one did.
- `copilot_integration` is stored by the analyzer and never read; `token` is stored by the
  integration and never read. Both are kept as fields with no behaviour.
- `_call_copilot` does not use its prompt, so the model's draft is a function of the suggestion
  alone.
- Writing the files and `os.makedirs` are not modelled: the written files are the artifact list,
  in write order. Failures of a write are not modelled, including a given `output_dir` that does
  not exist (only the default directory is created).
- Drafts are lists of paragraphs; their exact text is given by `ParagraphText` and `DraftText`.
- `Drafts.MissingDirsDraft`: the directory keywords are searched in the whole description, role
  name included. So a role whose name contains `meta`, `vars` and so on gets extra stubs. The
  lemma states only that every missing directory with a stub gets one, not that no others do.
- `RepoTree.ReadFile`: a regular file that `open` rejects (a permission error, say) cannot be
  represented: in the snapshot every regular file opens. In the source such a file would get an
  error note in its Copilot prompt, and it would make an unguarded read in a rule raise.
- `Analyzer.RepoAnalyzer.Analyze`: with no filter set, `analyze` returns `self.suggestions`
  itself. A later `analyze` then grows the list that an earlier call returned. The model returns
  a value, so this aliasing is not modelled.
- `Copilot.CopilotIntegration.GetSuggestions`: the list it returns with no filter set is the
  analyzer's own list, as for `analyze`; the aliasing is not modelled.

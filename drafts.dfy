/** The canned improvement drafts of scripts/copilot_integration.py: `_call_copilot` and
    its three category helpers. These only concatenate fixed text under conditions, so
    they are functions. A draft is a list of paragraphs, the pieces the source appends one
    after another; `ParagraphText` gives each paragraph's text word for word and
    `DraftText` the text of the whole draft. */
module Drafts {
  import opened Strings
  import opened Suggestions
  import opened Messages
  import opened Rules

  datatype Paragraph =
    | ImprovementHeading(title: string)  // the first line of every draft
    | PlaceholderNote(category: string)  // the two lines for a category without a draft
    | DocumentationHeading
    | ReadmeSkeleton                     // the README.md template with its seven sections
    | BestPracticesHeading
    | VariablesSnippet                   // the before/after task and the defaults entry
    | CompletenessHeading
    | CreateDirectoriesIntro
    | MetaStub                           // meta/main.yml with `galaxy_info`
    | DefaultsStub
    | HandlersStub
    | VarsStub
    | TemplatesStub                      // the `mkdir -p templates` command

  function ParagraphText(p: Paragraph): string
  {
    match p
    case ImprovementHeading(title) => "# Improvement for: " + title + "\n\n"
    case PlaceholderNote(category) =>
      "Placeholder improvement for " + category + " category.\n" +
      "This would be generated by GitHub Copilot in a real implementation.\n"
    case DocumentationHeading => "## Documentation Improvement\n\n"
    case ReadmeSkeleton =>
      "Here's an improved README.md with the missing sections:\n\n" +
      "```markdown\n" +
      "# Role Name\n\n" +
      "A brief description of the role goes here.\n\n" +
      "## Requirements\n\n" +
      "Any pre-requisites that may not be covered by Ansible itself or the role.\n\n" +
      "## Role Variables\n\n" +
      "A description of the settable variables for this role.\n\n" +
      "## Dependencies\n\n" +
      "A list of other roles hosted on Galaxy should go here.\n\n" +
      "## Example Playbook\n\n" +
      "```yaml\n- hosts: servers\n  roles:\n    - role_name\n```\n\n" +
      "## License\n\n" +
      "MIT\n\n" +
      "## Author Information\n\n" +
      "An optional section for the role authors.\n" +
      "```\n"
    case BestPracticesHeading => "## Best Practices Improvement\n\n"
    case VariablesSnippet =>
      "Replace hardcoded values with variables:\n\n" +
      "```yaml\n" +
      "# Before\n" +
      "- name: Configure service\n" +
      "  template:\n" +
      "    src: service.conf.j2\n" +
      "    dest: /etc/service.conf\n\n" +
      "# After\n" +
      "- name: Configure service\n" +
      "  template:\n" +
      "    src: service.conf.j2\n" +
      "    dest: \"{{ service_config_path }}\"\n" +
      "```\n\n" +
      "Add these variables to defaults/main.yml:\n\n" +
      "```yaml\n" +
      "# Service configuration\n" +
      "service_config_path: /etc/service.conf\n" +
      "```\n"
    case CompletenessHeading => "## Role Completeness Improvement\n\n"
    case CreateDirectoriesIntro => "Create the missing directories with appropriate files:\n\n"
    case MetaStub =>
      "### meta/main.yml\n\n" +
      "```yaml\n" +
      "---\n" +
      "dependencies: []\n\n" +
      "galaxy_info:\n" +
      "  author: your_name\n" +
      "  description: your_description\n" +
      "  company: your_company\n" +
      "  license: MIT\n" +
      "  min_ansible_version: 2.9\n" +
      "  platforms:\n" +
      "    - name: EL\n" +
      "      versions:\n" +
      "        - 7\n" +
      "        - 8\n" +
      "  galaxy_tags: []\n" +
      "```\n\n"
    case DefaultsStub => "### defaults/main.yml\n\n```yaml\n---\n# defaults file\n```\n\n"
    case HandlersStub => "### handlers/main.yml\n\n```yaml\n---\n# handlers file\n```\n\n"
    case VarsStub => "### vars/main.yml\n\n```yaml\n---\n# vars file\n```\n\n"
    case TemplatesStub => "### Create templates directory\n\n```bash\nmkdir -p templates\n```\n"
  }

  /** The text of a draft: its paragraphs one after another. */
  function DraftText(draft: seq<Paragraph>): string
  {
    if draft == [] then "" else ParagraphText(draft[0]) + DraftText(draft[1..])
  }

  // ---------------------------------------------------------------------------
  // The three category helpers

  /** `_generate_documentation_improvement`: the README skeleton when the first file path
      names a README.md. With no file path at all, `file_paths[0]` raises (`None`). */
  function DocumentationDraft(filePaths: seq<string>): (r: Option<seq<Paragraph>>)
    ensures r.None? <==> filePaths == []
  {
    if filePaths == [] then None
    else Some([DocumentationHeading] + if Contains(filePaths[0], "README.md") then [ReadmeSkeleton] else [])
  }

  /** `_generate_best_practices_improvement`: the before/after snippet when the title
      mentions hard-coded values, in any letter case. */
  function BestPracticesDraft(title: string): seq<Paragraph>
  {
    [BestPracticesHeading] + if Contains(Lower(title), "hardcoded") then [VariablesSnippet] else []
  }

  /** `_generate_role_completeness_improvement`: behind the missing-directories phrase, a
      stub per directory keyword found in the lower-cased description, in a fixed order. */
  function CompletenessDraft(description: string): seq<Paragraph>
  {
    var d := Lower(description);
    [CompletenessHeading] +
    if Contains(d, MissingDirsPhrase) then
      [CreateDirectoriesIntro] +
      (if Contains(d, "meta") then [MetaStub] else []) +
      (if Contains(d, "defaults") then [DefaultsStub] else []) +
      (if Contains(d, "handlers") then [HandlersStub] else []) +
      (if Contains(d, "vars") then [VarsStub] else []) +
      (if Contains(d, "templates") then [TemplatesStub] else [])
    else []
  }

  // ---------------------------------------------------------------------------
  // _call_copilot

  /** The categories that have a draft of their own; the test is exact string equality. */
  const DraftedCategories: set<string> := {"documentation", "best_practices", "role_completeness"}

  /** `_call_copilot(prompt, suggestion)`, which does not use the prompt. `None` stands for
      the `IndexError` of a documentation suggestion without file paths. */
  function CallCopilot(s: Suggestion): (r: Option<seq<Paragraph>>)
    ensures r.None? <==> s.category == "documentation" && s.filePaths == []
  {
    var heading := [ImprovementHeading(s.title)];
    if s.category == "documentation" then
      match DocumentationDraft(s.filePaths)
      case Some(body) => Some(heading + body)
      case None => None
    else if s.category == "best_practices" then Some(heading + BestPracticesDraft(s.title))
    else if s.category == "role_completeness" then Some(heading + CompletenessDraft(s.description))
    else Some(heading + [PlaceholderNote(s.category)])
  }

  // ---------------------------------------------------------------------------
  // Properties of the drafts

  /** Every draft's text opens with the suggestion's title. */
  lemma DraftStartsWithTitle(s: Suggestion)
    requires CallCopilot(s).Some?
    ensures CallCopilot(s).value[0] == ImprovementHeading(s.title)
    ensures StartsWith(DraftText(CallCopilot(s).value), "# Improvement for: " + s.title + "\n\n")
  {
    var draft := CallCopilot(s).value;
    assert draft[0] == ImprovementHeading(s.title);
    StartsWithConcat(ParagraphText(draft[0]), DraftText(draft[1..]));
  }

  /** Any category but the three drafted ones, including a drafted one spelt in another
      letter case, gets only the placeholder. */
  lemma OtherCategoryPlaceholder(s: Suggestion)
    requires s.category !in DraftedCategories
    ensures CallCopilot(s) == Some([ImprovementHeading(s.title), PlaceholderNote(s.category)])
  {
    assert [ImprovementHeading(s.title)] + [PlaceholderNote(s.category)] == [ImprovementHeading(s.title), PlaceholderNote(s.category)];
  }

  /** The placeholder names the category. */
  lemma PlaceholderNamesCategory(category: string)
    ensures Contains(ParagraphText(PlaceholderNote(category)), category)
  {
    var lead := "Placeholder improvement for ";
    var tail := " category.\n" + "This would be generated by GitHub Copilot in a real implementation.\n";
    assert ParagraphText(PlaceholderNote(category)) == lead + category + tail;
    assert OccursAt(lead + category + tail, category, |lead|);
  }

  /** The three drafted categories each get their own helper's paragraphs after the heading. */
  lemma DraftedCategoryDispatch(s: Suggestion)
    ensures s.category == "documentation" && s.filePaths != [] ==>
      CallCopilot(s) == Some([ImprovementHeading(s.title)] + DocumentationDraft(s.filePaths).value)
    ensures s.category == "best_practices" ==>
      CallCopilot(s) == Some([ImprovementHeading(s.title)] + BestPracticesDraft(s.title))
    ensures s.category == "role_completeness" ==>
      CallCopilot(s) == Some([ImprovementHeading(s.title)] + CompletenessDraft(s.description))
  {
  }

  /** The documentation draft holds the README skeleton exactly when the first file path
      names a README.md; otherwise it is only its heading. */
  lemma DocumentationDraftIff(filePaths: seq<string>)
    requires filePaths != []
    ensures DocumentationDraft(filePaths).value[0] == DocumentationHeading
    ensures ReadmeSkeleton in DocumentationDraft(filePaths).value <==> Contains(filePaths[0], "README.md")
    ensures !Contains(filePaths[0], "README.md") ==> DocumentationDraft(filePaths).value == [DocumentationHeading]
  {
  }

  /** The best-practices draft holds the snippet exactly when the lower-cased title
      contains `hardcoded`; otherwise it is only its heading. */
  lemma BestPracticesDraftIff(title: string)
    ensures BestPracticesDraft(title)[0] == BestPracticesHeading
    ensures VariablesSnippet in BestPracticesDraft(title) <==> Contains(Lower(title), "hardcoded")
    ensures !Contains(Lower(title), "hardcoded") ==> BestPracticesDraft(title) == [BestPracticesHeading]
  {
  }

  // ---------------------------------------------------------------------------
  // The role-completeness draft as a table

  /** The directories the role-completeness draft has a stub for, in the order the stubs
      appear. */
  const DraftedDirectories: seq<string> := ["meta", "defaults", "handlers", "vars", "templates"]

  function StubFor(dir: string): Paragraph
    requires dir in DraftedDirectories
  {
    if dir == "meta" then MetaStub
    else if dir == "defaults" then DefaultsStub
    else if dir == "handlers" then HandlersStub
    else if dir == "vars" then VarsStub
    else TemplatesStub
  }

  /** The role-completeness draft goes beyond its heading exactly when the lower-cased
      description has the missing-directories phrase. */
  lemma CompletenessDraftGate(description: string)
    ensures CompletenessDraft(description)[0] == CompletenessHeading
    ensures |CompletenessDraft(description)| > 1 <==> Contains(Lower(description), MissingDirsPhrase)
  {
  }

  /** Past the phrase, the draft has a directory's stub exactly when the directory's name
      occurs anywhere in the lower-cased description. */
  lemma CompletenessDraftStub(description: string, dir: string)
    requires dir in DraftedDirectories
    ensures StubFor(dir) in CompletenessDraft(description) <==>
      Contains(Lower(description), MissingDirsPhrase) && Contains(Lower(description), dir)
  {
    var d := Lower(description);
    if Contains(d, MissingDirsPhrase) {
      var m := if Contains(d, "meta") then [MetaStub] else [];
      var f := if Contains(d, "defaults") then [DefaultsStub] else [];
      var h := if Contains(d, "handlers") then [HandlersStub] else [];
      var v := if Contains(d, "vars") then [VarsStub] else [];
      var t := if Contains(d, "templates") then [TemplatesStub] else [];
      assert CompletenessDraft(description) == [CompletenessHeading] + ([CreateDirectoriesIntro] + m + f + h + v + t);
    }
  }

  /** The draft for a missing-directories finding of the structure rule always gets past
      the phrase, and it has a stub for every missing directory that has one. It may have
      more: the keywords are looked for in the whole description, role name included. */
  lemma MissingDirsDraft(s: Suggestion, role: string, rolePath: string, missing: seq<string>)
    requires Payload(s) == MissingDirsFinding(role, rolePath, missing)
    ensures s.category == "role_completeness"
    ensures |CompletenessDraft(s.description)| > 1
    ensures forall dir :: dir in missing && dir in DraftedDirectories ==>
      StubFor(dir) in CompletenessDraft(s.description)
  {
    var head := "The '" + role + DirsLead;
    var list := Join(missing, ", ");
    assert s.description == head + list + DirsAdvice;
    MissingDirsPhraseIn(role, list + DirsAdvice);
    assert head + (list + DirsAdvice) == s.description;
    LowerCaseKeywords();
    ContainsLower(s.description, MissingDirsPhrase);
    CompletenessDraftGate(s.description);
    forall dir | dir in missing && dir in DraftedDirectories
      ensures StubFor(dir) in CompletenessDraft(s.description)
    {
      JoinContains(missing, ", ", dir);
      ContainsInMiddle(head, list, DirsAdvice, dir);
      ContainsLower(s.description, dir);
      CompletenessDraftStub(s.description, dir);
    }
  }

  /** The phrase and the directory names are written in lower case. */
  lemma LowerCaseKeywords()
    ensures NoUpper(MissingDirsPhrase)
    ensures forall dir :: dir in DraftedDirectories ==> NoUpper(dir)
  {
  }

  lemma MissingDirsPhraseIn(role: string, rest: string)
    ensures Contains("The '" + role + DirsLead + rest, MissingDirsPhrase)
  {
    assert OccursAt(MissingDirsPhrase, MissingDirsPhrase, 0);
    ContainsInMiddle("' role is ", MissingDirsPhrase, ": ", MissingDirsPhrase);
    ContainsInMiddle("The '" + role, DirsLead, rest, MissingDirsPhrase);
  }

  /** Of the standard role directories, only `tasks` never gets a stub. */
  lemma OnlyTasksUndrafted()
    ensures forall d :: d in DraftedDirectories ==> d in StandardDirs
    ensures "tasks" in StandardDirs && "tasks" !in DraftedDirectories
    ensures forall d :: d in StandardDirs && d != "tasks" ==> d in DraftedDirectories
  {
  }
}

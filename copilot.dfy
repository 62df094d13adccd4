/** `CopilotIntegration` of scripts/copilot_integration.py: it runs the analyzer, writes a
    prompt document per suggestion and, unless in a dry run, a canned improvement draft
    beside it. The files written are returned as a list of artifacts (path and text) in
    the order they are written. */
module Copilot {
  import opened Strings
  import opened RepoTree
  import opened Suggestions
  import opened Rules
  import opened Analyzer
  import opened Drafts

  // ---------------------------------------------------------------------------
  // The prompt of _create_copilot_prompt

  const PromptTitle: string := "# Ansible HPC Repository Improvement\n\n"
  const TitleLabel: string := "## Suggestion: "
  const PriorityLabel: string := "**Priority:** "
  const CategoryLabel: string := "**Category:** "
  const FilesHeading: string := "**Files to modify:**\n"
  const TaskSection: string :=
    "\n## Task\n\n" +
    "Please implement the suggested improvement for the Ansible HPC repository. " +
    "Provide the complete modified file(s) with your changes.\n\n"

  // The four formatted lines of the head.
  function TitleLine(s: Suggestion): string { TitleLabel + s.title + "\n\n" }
  function PriorityLine(s: Suggestion): string { PriorityLabel + Upper(s.priority) + "\n\n" }
  function CategoryLine(s: Suggestion): string { CategoryLabel + s.category + "\n\n" }
  function DescriptionLine(s: Suggestion): string { s.description + "\n\n" }

  /** The opening of the prompt: title, upper-cased priority, category and description,
      each appended as one formatted line. */
  function PromptHead(s: Suggestion): string {
    PromptTitle + TitleLine(s) + PriorityLine(s) + CategoryLine(s) + DescriptionLine(s)
  }

  /** The list line of a file path, relative to the repository. */
  function ListLine(repoPath: string, path: string): string {
    "- `" + RelPath(repoPath, path) + "`\n"
  }

  const ContentFence: string := "\n```\n"
  const ErrorLabel: string := "\nError reading file: "

  /** What follows the list line: the file's text in a fenced block, an error note when
      reading fails, nothing when the path is not a regular file. */
  function FileNote(r: ReadResult): string {
    match r
    case Read(content) => ContentFence + content + "\n```\n\n"
    case DecodeError(reason) => ErrorLabel + reason + "\n\n"
    case OpenError => ""
  }

  /** What one file path adds to the prompt. `ReadFile` gives `OpenError` exactly when the
      path is not a regular file, which is when the source skips reading it. */
  function FileEntry(t: Tree, repoPath: string, path: string): string {
    ListLine(repoPath, path) + FileNote(ReadFile(t, path))
  }

  function EntryMaker(t: Tree, repoPath: string): string -> string {
    path => FileEntry(t, repoPath, path)
  }

  /** The entries of `paths`, in order. */
  function FileEntries(t: Tree, repoPath: string, paths: seq<string>): string {
    ConcatMap(paths, EntryMaker(t, repoPath))
  }

  function Prompt(t: Tree, repoPath: string, s: Suggestion): string {
    PromptHead(s) + FilesHeading + FileEntries(t, repoPath, s.filePaths) + TaskSection
  }

  // Where the four fields and the file entries sit in the prompt.
  function TitleAt(s: Suggestion): nat { |PromptTitle| + |TitleLabel| }
  function PriorityAt(s: Suggestion): nat { TitleAt(s) + |s.title| + 2 + |PriorityLabel| }
  function CategoryAt(s: Suggestion): nat { PriorityAt(s) + |s.priority| + 2 + |CategoryLabel| }
  function DescriptionAt(s: Suggestion): nat { CategoryAt(s) + |s.category| + 2 }
  function EntriesAt(s: Suggestion): nat { |PromptHead(s)| + |FilesHeading| }

  /** A value formatted into a line lies after the label. */
  lemma OccursInLine(pre: string, lead: string, value: string, after: string)
    ensures OccursAt(pre + (lead + value + after), value, |pre| + |lead|)
  {
    assert (pre + (lead + value + after))[|pre| + |lead|..|pre| + |lead| + |value|] == value;
  }

  lemma OccursFirstInLine(pre: string, value: string, after: string)
    ensures OccursAt(pre + (value + after), value, |pre|)
  {
    assert (pre + (value + after))[|pre|..|pre| + |value|] == value;
  }

  lemma TitleInHead(s: Suggestion)
    ensures OccursAt(PromptHead(s), s.title, TitleAt(s))
  {
    var h1 := PromptTitle + TitleLine(s);
    var h2 := h1 + PriorityLine(s);
    var h3 := h2 + CategoryLine(s);
    OccursInLine(PromptTitle, TitleLabel, s.title, "\n\n");
    OccursInPrefix(h1, PriorityLine(s), s.title, TitleAt(s));
    OccursInPrefix(h2, CategoryLine(s), s.title, TitleAt(s));
    OccursInPrefix(h3, DescriptionLine(s), s.title, TitleAt(s));
  }

  lemma PriorityInHead(s: Suggestion)
    ensures OccursAt(PromptHead(s), Upper(s.priority), PriorityAt(s))
  {
    var h1 := PromptTitle + TitleLine(s);
    var h2 := h1 + PriorityLine(s);
    var h3 := h2 + CategoryLine(s);
    OccursInLine(h1, PriorityLabel, Upper(s.priority), "\n\n");
    OccursInPrefix(h2, CategoryLine(s), Upper(s.priority), PriorityAt(s));
    OccursInPrefix(h3, DescriptionLine(s), Upper(s.priority), PriorityAt(s));
  }

  lemma CategoryInHead(s: Suggestion)
    ensures OccursAt(PromptHead(s), s.category, CategoryAt(s))
  {
    var h2 := PromptTitle + TitleLine(s) + PriorityLine(s);
    var h3 := h2 + CategoryLine(s);
    OccursInLine(h2, CategoryLabel, s.category, "\n\n");
    OccursInPrefix(h3, DescriptionLine(s), s.category, CategoryAt(s));
  }

  lemma DescriptionInHead(s: Suggestion)
    ensures OccursAt(PromptHead(s), s.description, DescriptionAt(s))
  {
    var h3 := PromptTitle + TitleLine(s) + PriorityLine(s) + CategoryLine(s);
    OccursFirstInLine(h3, s.description, "\n\n");
  }

  /** What lies in the head lies in the prompt at the same place. */
  lemma InPromptHead(t: Tree, repoPath: string, s: Suggestion, sub: string, k: int)
    requires OccursAt(PromptHead(s), sub, k)
    ensures OccursAt(Prompt(t, repoPath, s), sub, k)
  {
    var h := PromptHead(s);
    var fe := FileEntries(t, repoPath, s.filePaths);
    OccursInPrefix(h, FilesHeading, sub, k);
    OccursInPrefix(h + FilesHeading, fe, sub, k);
    OccursInPrefix(h + FilesHeading + fe, TaskSection, sub, k);
  }

  /** The prompt gives the title, the upper-cased priority, the category and the
      description in that order, then the file list, and it always ends with the Task section. */
  lemma PromptLayout(t: Tree, repoPath: string, s: Suggestion)
    ensures OccursAt(Prompt(t, repoPath, s), s.title, TitleAt(s))
    ensures OccursAt(Prompt(t, repoPath, s), Upper(s.priority), PriorityAt(s))
    ensures OccursAt(Prompt(t, repoPath, s), s.category, CategoryAt(s))
    ensures OccursAt(Prompt(t, repoPath, s), s.description, DescriptionAt(s))
    ensures TitleAt(s) + |s.title| < PriorityAt(s) && PriorityAt(s) + |s.priority| < CategoryAt(s)
    ensures CategoryAt(s) + |s.category| < DescriptionAt(s)
    ensures OccursAt(Prompt(t, repoPath, s), FilesHeading, |PromptHead(s)|)
    ensures EndsWith(Prompt(t, repoPath, s), TaskSection)
  {
    TitleInHead(s);
    PriorityInHead(s);
    CategoryInHead(s);
    DescriptionInHead(s);
    InPromptHead(t, repoPath, s, s.title, TitleAt(s));
    InPromptHead(t, repoPath, s, Upper(s.priority), PriorityAt(s));
    InPromptHead(t, repoPath, s, s.category, CategoryAt(s));
    InPromptHead(t, repoPath, s, s.description, DescriptionAt(s));
    var h := PromptHead(s);
    var fe := FileEntries(t, repoPath, s.filePaths);
    OccursAtEnd(h, FilesHeading);
    OccursInPrefix(h + FilesHeading, fe, FilesHeading, |h|);
    OccursInPrefix(h + FilesHeading + fe, TaskSection, FilesHeading, |h|);
    EndsWithConcat(h + FilesHeading + fe, TaskSection);
  }

  /** What an entry says about its path: the list line first, then the file's text when
      it reads as text, the error's message when it does not decode, and nothing more
      when it is not a regular file. */
  lemma FileEntryCases(t: Tree, repoPath: string, path: string)
    ensures StartsWith(FileEntry(t, repoPath, path), ListLine(repoPath, path))
    ensures !IsFile(t, path) <==> FileEntry(t, repoPath, path) == ListLine(repoPath, path)
    ensures ReadFile(t, path).Read? ==> Contains(FileEntry(t, repoPath, path), ReadFile(t, path).text)
    ensures ReadFile(t, path).DecodeError? ==>
      OccursAt(FileEntry(t, repoPath, path), ErrorLabel, |ListLine(repoPath, path)|) &&
      Contains(FileEntry(t, repoPath, path), ReadFile(t, path).reason)
  {
    var line := ListLine(repoPath, path);
    StartsWithConcat(line, FileNote(ReadFile(t, path)));
    match ReadFile(t, path)
    case Read(content) =>
      OccursInLine(line, ContentFence, content, "\n```\n\n");
      ContainsAt(FileEntry(t, repoPath, path), content, |line| + |ContentFence|);
    case DecodeError(reason) =>
      OccursInLine(line, ErrorLabel, reason, "\n\n");
      ContainsAt(FileEntry(t, repoPath, path), reason, |line| + |ErrorLabel|);
      OccursAtEnd(line, ErrorLabel);
      OccursInPrefix(line + ErrorLabel, reason, ErrorLabel, |line|);
      OccursInPrefix(line + ErrorLabel + reason, "\n\n", ErrorLabel, |line|);
    case OpenError =>
      assert line + "" == line;
  }

  /** The prompt has the entry of every file path, one after another in list order: the
      entry of the `k`-th path starts where the entries before it end. */
  lemma PromptListsEveryPath(t: Tree, repoPath: string, s: Suggestion, k: nat)
    requires k < |s.filePaths|
    ensures OccursAt(Prompt(t, repoPath, s), FileEntry(t, repoPath, s.filePaths[k]),
      EntriesAt(s) + |FileEntries(t, repoPath, s.filePaths[..k])|)
  {
    var ps := s.filePaths;
    var entry := FileEntry(t, repoPath, ps[k]);
    ConcatMapAt(ps, k, EntryMaker(t, repoPath));
    var before := FileEntries(t, repoPath, ps[..k]);
    var h := PromptHead(s) + FilesHeading;
    OccursShift(h, FileEntries(t, repoPath, ps), entry, |before|);
    OccursInPrefix(h + FileEntries(t, repoPath, ps), TaskSection, entry, |h| + |before|);
  }

  // ---------------------------------------------------------------------------
  // generate_improvements

  /** A file written: its path and its text. */
  datatype Artifact = Artifact(path: string, text: string)

  /** An entry of the list `generate_improvements` returns. */
  datatype Improvement = Improvement(suggestion: Suggestion, improvement: string, promptFile: string)

  /** What a run of `generate_improvements` leaves: the files written in order, the list it
      returns, and whether the `IndexError` of `_call_copilot` escaped, in which case the
      list is lost and the files written before stay. */
  datatype Generation = Generation(artifacts: seq<Artifact>, improvements: seq<Improvement>, crashed: bool)

  /** `output_dir`, or `copilot_improvements` under the repository when it is not given. */
  function OutputDir(repoPath: string, outputDir: Option<string>): string {
    if Truthy(outputDir) then outputDir.value else PathJoin(repoPath, "copilot_improvements")
  }

  function PromptPath(dir: string, n: nat): string { PathJoin(dir, "prompt_" + NatToString(n) + ".md") }

  function ImprovementPath(dir: string, n: nat): string { PathJoin(dir, "improvement_" + NatToString(n) + ".md") }

  /** The text of the draft `_call_copilot` returns, or `None` where it raises. */
  function DraftOf(s: Suggestion): Option<string> {
    match CallCopilot(s)
    case None => None
    case Some(draft) => Some(DraftText(draft))
  }

  /** `_create_copilot_prompt` as a function of the suggestion alone. */
  function PromptMaker(t: Tree, repoPath: string): Suggestion -> string {
    s => Prompt(t, repoPath, s)
  }

  /** The loop body for the `n`-th suggestion `s`, given how a prompt is made and how a
      draft is made (`None` where making it raises). */
  function Step(g: Generation, dir: string, n: nat, s: Suggestion, dryRun: bool,
                prompt: Suggestion -> string, draft: Suggestion -> Option<string>): Generation
  {
    var promptFile := PromptPath(dir, n);
    var written := g.artifacts + [Artifact(promptFile, prompt(s))];
    if dryRun then Generation(written, g.improvements, false)
    else match draft(s)
      case None => Generation(written, g.improvements, true)
      case Some(text) =>
        Generation(written + [Artifact(ImprovementPath(dir, n), text)],
          g.improvements + [Improvement(s, text, promptFile)], false)
  }

  /** The loop over `enumerate(suggestions)`, stopping when a step raises. */
  function Loop(dir: string, xs: seq<Suggestion>, dryRun: bool,
                prompt: Suggestion -> string, draft: Suggestion -> Option<string>): Generation
  {
    if xs == [] then Generation([], [], false)
    else
      var g := Loop(dir, xs[..|xs| - 1], dryRun, prompt, draft);
      if g.crashed then g else Step(g, dir, |xs|, xs[|xs| - 1], dryRun, prompt, draft)
  }

  /** `generate_improvements` with the prompts of `_create_copilot_prompt` and the drafts
      of `_call_copilot`. */
  function Generate(t: Tree, repoPath: string, dir: string, xs: seq<Suggestion>, dryRun: bool): Generation {
    Loop(dir, xs, dryRun, PromptMaker(t, repoPath), DraftOf)
  }

  lemma LoopSnoc(dir: string, xs: seq<Suggestion>, i: nat, dryRun: bool,
                 prompt: Suggestion -> string, draft: Suggestion -> Option<string>)
    requires i < |xs|
    ensures Loop(dir, xs[..i + 1], dryRun, prompt, draft) ==
      var g := Loop(dir, xs[..i], dryRun, prompt, draft);
      if g.crashed then g else Step(g, dir, i + 1, xs[i], dryRun, prompt, draft)
  {
    assert xs[..i + 1][..i] == xs[..i];
  }

  /** Once a step has raised, the later suggestions are not processed. */
  lemma {:induction false} LoopStaysCrashed(dir: string, xs: seq<Suggestion>, i: nat, dryRun: bool,
                                            prompt: Suggestion -> string, draft: Suggestion -> Option<string>)
    requires i <= |xs|
    requires Loop(dir, xs[..i], dryRun, prompt, draft).crashed
    ensures Loop(dir, xs, dryRun, prompt, draft) == Loop(dir, xs[..i], dryRun, prompt, draft)
    decreases |xs| - i
  {
    if i == |xs| {
      assert xs[..i] == xs;
    } else {
      LoopSnoc(dir, xs, i, dryRun, prompt, draft);
      LoopStaysCrashed(dir, xs, i + 1, dryRun, prompt, draft);
    }
  }

  /** The prompt of the `k`-th suggestion (counting from 0), `s`, is the `k`-th file of a
      dry run. */
  predicate WrotePrompt(g: Generation, dir: string, k: nat, s: Suggestion, prompt: Suggestion -> string) {
    k < |g.artifacts| && g.artifacts[k] == Artifact(PromptPath(dir, k + 1), prompt(s))
  }

  /** Outside a dry run, the `k`-th suggestion `s` has a draft, its prompt and its draft are
      the files `2k` and `2k + 1`, and the `k`-th entry returned pairs it with its draft and
      its prompt file. */
  predicate WrotePair(g: Generation, dir: string, k: nat, s: Suggestion,
                      prompt: Suggestion -> string, draft: Suggestion -> Option<string>) {
    draft(s).Some? && 2 * k + 1 < |g.artifacts| && k < |g.improvements| &&
    g.artifacts[2 * k] == Artifact(PromptPath(dir, k + 1), prompt(s)) &&
    g.artifacts[2 * k + 1] == Artifact(ImprovementPath(dir, k + 1), draft(s).value) &&
    g.improvements[k] == Improvement(s, draft(s).value, PromptPath(dir, k + 1))
  }

  lemma WrotePromptKept(g: Generation, more: seq<Artifact>, dir: string, k: nat, s: Suggestion, prompt: Suggestion -> string)
    requires WrotePrompt(g, dir, k, s, prompt)
    ensures WrotePrompt(g.(artifacts := g.artifacts + more), dir, k, s, prompt)
  {
    assert (g.artifacts + more)[k] == g.artifacts[k];
  }

  lemma WrotePairKept(g: Generation, more: seq<Artifact>, also: seq<Improvement>, dir: string, k: nat, s: Suggestion,
                      prompt: Suggestion -> string, draft: Suggestion -> Option<string>)
    requires WrotePair(g, dir, k, s, prompt, draft)
    ensures WrotePair(Generation(g.artifacts + more, g.improvements + also, g.crashed), dir, k, s, prompt, draft)
  {
    assert (g.artifacts + more)[2 * k] == g.artifacts[2 * k];
    assert (g.artifacts + more)[2 * k + 1] == g.artifacts[2 * k + 1];
    assert (g.improvements + also)[k] == g.improvements[k];
  }

  /** A dry run writes exactly the prompts `prompt_1` .. `prompt_N`, in order, and returns
      nothing. */
  lemma {:induction false} DryRunWritesPrompts(dir: string, xs: seq<Suggestion>,
                                               prompt: Suggestion -> string, draft: Suggestion -> Option<string>)
    ensures !Loop(dir, xs, true, prompt, draft).crashed
    ensures Loop(dir, xs, true, prompt, draft).improvements == []
    ensures |Loop(dir, xs, true, prompt, draft).artifacts| == |xs|
    ensures forall k :: 0 <= k < |xs| ==> WrotePrompt(Loop(dir, xs, true, prompt, draft), dir, k, xs[k], prompt)
  {
    if xs != [] {
      var n := |xs| - 1;
      var init := xs[..n];
      DryRunWritesPrompts(dir, init, prompt, draft);
      var g := Loop(dir, init, true, prompt, draft);
      var a := Artifact(PromptPath(dir, n + 1), prompt(xs[n]));
      var g' := Loop(dir, xs, true, prompt, draft);
      assert g' == g.(artifacts := g.artifacts + [a]);
      forall k | 0 <= k < |xs| ensures WrotePrompt(g', dir, k, xs[k], prompt) {
        if k < n {
          assert init[k] == xs[k];
          WrotePromptKept(g, [a], dir, k, init[k], prompt);
        }
      }
    }
  }

  /** Outside a dry run, when every suggestion has a draft, `prompt_k` and `improvement_k`
      are written in pairs, in order, and the list returned pairs each suggestion with its
      draft and its prompt file. */
  lemma {:induction false} NormalRunWritesPairs(dir: string, xs: seq<Suggestion>,
                                                prompt: Suggestion -> string, draft: Suggestion -> Option<string>)
    requires forall k :: 0 <= k < |xs| ==> draft(xs[k]).Some?
    ensures !Loop(dir, xs, false, prompt, draft).crashed
    ensures |Loop(dir, xs, false, prompt, draft).artifacts| == 2 * |xs|
    ensures |Loop(dir, xs, false, prompt, draft).improvements| == |xs|
    ensures forall k :: 0 <= k < |xs| ==> WrotePair(Loop(dir, xs, false, prompt, draft), dir, k, xs[k], prompt, draft)
  {
    if xs != [] {
      var n := |xs| - 1;
      var init := xs[..n];
      assert forall k :: 0 <= k < n ==> init[k] == xs[k];
      NormalRunWritesPairs(dir, init, prompt, draft);
      var g := Loop(dir, init, false, prompt, draft);
      var text := draft(xs[n]).value;
      var more := [Artifact(PromptPath(dir, n + 1), prompt(xs[n])), Artifact(ImprovementPath(dir, n + 1), text)];
      var also := [Improvement(xs[n], text, PromptPath(dir, n + 1))];
      var g' := Loop(dir, xs, false, prompt, draft);
      assert g' == Generation(g.artifacts + more, g.improvements + also, false) by {
        assert g.artifacts + [more[0]] + [more[1]] == g.artifacts + more;
      }
      forall k | 0 <= k < |xs| ensures WrotePair(g', dir, k, xs[k], prompt, draft) {
        if k < n {
          WrotePairKept(g, more, also, dir, k, init[k], prompt, draft);
        }
      }
    }
  }

  /** Some suggestion has no draft. */
  predicate HasUndrafted(xs: seq<Suggestion>, draft: Suggestion -> Option<string>) {
    exists k :: 0 <= k < |xs| && draft(xs[k]).None?
  }

  /** Outside a dry run the loop raises exactly when some suggestion has no draft. */
  lemma {:induction false} NormalRunCrashIff(dir: string, xs: seq<Suggestion>,
                                             prompt: Suggestion -> string, draft: Suggestion -> Option<string>)
    ensures Loop(dir, xs, false, prompt, draft).crashed <==> HasUndrafted(xs, draft)
  {
    if xs != [] {
      var n := |xs| - 1;
      var init := xs[..n];
      NormalRunCrashIff(dir, init, prompt, draft);
      var g := Loop(dir, init, false, prompt, draft);
      assert Loop(dir, xs, false, prompt, draft).crashed <==> g.crashed || draft(xs[n]).None?;
      if g.crashed {
        var k :| 0 <= k < n && draft(init[k]).None?;
        assert xs[k] == init[k];
      } else {
        forall k | 0 <= k < n
          ensures draft(xs[k]).Some?
        {
          assert xs[k] == init[k];
        }
      }
    }
  }

  /** `_call_copilot` raises exactly for a documentation suggestion without file paths. */
  lemma DraftOfNone(s: Suggestion)
    ensures DraftOf(s).None? <==> s.category == "documentation" && s.filePaths == []
  {
  }

  /** No two files of a run share a path: prompt and improvement files differ, and so do the
      files of different suggestions. */
  lemma ArtifactPathsDistinct(dir: string, n: nat, m: nat)
    ensures PromptPath(dir, n) == PromptPath(dir, m) ==> n == m
    ensures ImprovementPath(dir, n) == ImprovementPath(dir, m) ==> n == m
    ensures PromptPath(dir, n) != ImprovementPath(dir, m)
  {
    var base := if dir == "" || EndsWith(dir, "/") then dir else dir + "/";
    assert PromptPath(dir, n) == base + ("prompt_" + NatToString(n) + ".md");
    assert PromptPath(dir, m) == base + ("prompt_" + NatToString(m) + ".md");
    assert ImprovementPath(dir, n) == base + ("improvement_" + NatToString(n) + ".md");
    assert ImprovementPath(dir, m) == base + ("improvement_" + NatToString(m) + ".md");
    if PromptPath(dir, n) == PromptPath(dir, m) {
      NamesEqual("prompt_", NatToString(n), NatToString(m), base);
      NatToStringInjective(n, m);
    }
    if ImprovementPath(dir, n) == ImprovementPath(dir, m) {
      NamesEqual("improvement_", NatToString(n), NatToString(m), base);
      NatToStringInjective(n, m);
    }
    assert PromptPath(dir, n)[|base|] == 'p';
    assert ImprovementPath(dir, m)[|base|] == 'i';
  }

  lemma NamesEqual(prefix: string, a: string, b: string, base: string)
    requires base + (prefix + a + ".md") == base + (prefix + b + ".md")
    ensures a == b
  {
    var x, y := base + (prefix + a + ".md"), base + (prefix + b + ".md");
    assert |a| == |b|;
    assert a == x[|base| + |prefix|..|base| + |prefix| + |a|];
    assert b == y[|base| + |prefix|..|base| + |prefix| + |b|];
  }

  // ---------------------------------------------------------------------------
  // The class

  class CopilotIntegration {
    const repoPath: string
    /** The `token` argument, or else `GITHUB_TOKEN` from the environment; never read. */
    const token: Option<string>
    /** The repository as the file tests of the prompt see it. */
    const tree: Tree
    const analyzer: RepoAnalyzer

    /** `__init__`: an analyzer with JSON output over the same repository. */
    constructor(tree: Tree, repoPath: string, token: Option<string>, envToken: Option<string>, today: string)
      ensures this.tree == tree && this.repoPath == repoPath
      ensures this.token == if Truthy(token) then token else envToken
      ensures fresh(analyzer) && analyzer.tree == tree && analyzer.today == today
      ensures analyzer.outputFormat == "json" && !analyzer.githubIntegration && !analyzer.copilotIntegration
      ensures analyzer.suggestions == [] && analyzer.filterRole == None && analyzer.filterCategory == None
    {
      this.tree := tree;
      this.repoPath := repoPath;
      this.token := if Truthy(token) then token else envToken;
      analyzer := new RepoAnalyzer(tree, "json", false, false, today);
    }

    /** `get_suggestions`: each filter is set only when its argument is a non-empty string,
        so an earlier call's filter stays; then `analyze`, whose findings are added to the
        ones of earlier calls. */
    method GetSuggestions(role: Option<string>, category: Option<string>) returns (result: Outcome<seq<Suggestion>>)
      modifies analyzer
      ensures analyzer.filterRole == if Truthy(role) then role else old(analyzer.filterRole)
      ensures analyzer.filterCategory == if Truthy(category) then category else old(analyzer.filterCategory)
      ensures analyzer.suggestions ==
        old(analyzer.suggestions) + Stamp(Analysis(analyzer.tree).findings, |old(analyzer.suggestions)|, analyzer.today)
      ensures result.Escaped? <==> Analysis(analyzer.tree).raised
      ensures result.Returned? ==> result.value == ApplyFilters(analyzer.suggestions, analyzer.filterRole, analyzer.filterCategory)
    {
      if Truthy(role) {
        analyzer.filterRole := role;
      }
      if Truthy(category) {
        analyzer.filterCategory := category;
      }
      result := analyzer.Analyze();
    }

    /** `_create_copilot_prompt`: the fields, then each path's list line and, when it is a
        regular file, its text or the error met reading it, then the Task section. */
    method CreatePrompt(s: Suggestion) returns (prompt: string)
      ensures prompt == Prompt(tree, repoPath, s)
    {
      prompt := PromptTitle;
      prompt := prompt + (TitleLabel + s.title + "\n\n");
      prompt := prompt + (PriorityLabel + Upper(s.priority) + "\n\n");
      prompt := prompt + (CategoryLabel + s.category + "\n\n");
      prompt := prompt + (s.description + "\n\n");
      prompt := prompt + FilesHeading;
      ghost var head := prompt;
      var i := 0;
      while i < |s.filePaths|
        invariant 0 <= i <= |s.filePaths|
        invariant prompt == head + FileEntries(tree, repoPath, s.filePaths[..i])
      {
        var path := s.filePaths[i];
        var relPath := RelPath(repoPath, path);
        ghost var before := prompt;
        prompt := prompt + ("- `" + relPath + "`\n");
        ghost var listed := prompt;
        if IsFile(tree, path) {
          match ReadFile(tree, path)
          case Read(content) =>
            prompt := prompt + (ContentFence + content + "\n```\n\n");
          case DecodeError(reason) =>
            prompt := prompt + (ErrorLabel + reason + "\n\n");
          case OpenError =>
        }
        assert prompt == listed + FileNote(ReadFile(tree, path));
        ConcatMapSnoc(s.filePaths, i, EntryMaker(tree, repoPath));
        EntryAppended(head, FileEntries(tree, repoPath, s.filePaths[..i]), ListLine(repoPath, path), FileNote(ReadFile(tree, path)));
        i := i + 1;
      }
      assert s.filePaths[..i] == s.filePaths;
      prompt := prompt + TaskSection;
    }

    /** `generate_improvements`: the prompt file of every suggestion and, outside a dry
        run, its draft beside it. Creating the directory is not modelled. */
    method GenerateImprovements(suggestions: seq<Suggestion>, outputDir: Option<string>, dryRun: bool)
      returns (g: Generation)
      ensures g == Generate(tree, repoPath, OutputDir(repoPath, outputDir), suggestions, dryRun)
    {
      var dir := if Truthy(outputDir) then outputDir.value else PathJoin(repoPath, "copilot_improvements");
      var artifacts: seq<Artifact> := [];
      var improvements: seq<Improvement> := [];
      var idx := 0;
      while idx < |suggestions|
        invariant 0 <= idx <= |suggestions|
        invariant Generate(tree, repoPath, dir, suggestions[..idx], dryRun) == Generation(artifacts, improvements, false)
      {
        var suggestion := suggestions[idx];
        LoopSnoc(dir, suggestions, idx, dryRun, PromptMaker(tree, repoPath), DraftOf);
        var prompt := CreatePrompt(suggestion);
        var promptFile := PathJoin(dir, "prompt_" + NatToString(idx + 1) + ".md");
        artifacts := artifacts + [Artifact(promptFile, prompt)];
        if !dryRun {
          var draft := CallCopilot(suggestion);
          if draft.None? {
            LoopStaysCrashed(dir, suggestions, idx + 1, dryRun, PromptMaker(tree, repoPath), DraftOf);
            return Generation(artifacts, improvements, true);
          }
          var improvement := DraftText(draft.value);
          improvements := improvements + [Improvement(suggestion, improvement, promptFile)];
          var improvementFile := PathJoin(dir, "improvement_" + NatToString(idx + 1) + ".md");
          artifacts := artifacts + [Artifact(improvementFile, improvement)];
        }
        idx := idx + 1;
      }
      assert suggestions[..idx] == suggestions;
      g := Generation(artifacts, improvements, false);
    }
  }

  /** The loop of `_create_copilot_prompt` appends one entry at a time. */
  lemma EntryAppended(head: string, done: string, line: string, note: string)
    ensures head + done + line + note == head + (done + (line + note))
  {
  }

  // ---------------------------------------------------------------------------
  // main

  const NoSuggestionsMessage: string := "No suggestions found."

  /** How `main` of scripts/copilot_integration.py ends: the analysis raised, it printed
      `NoSuggestionsMessage` and stopped, or it called `generate_improvements`. */
  datatype CopilotRun = AnalysisCrashed | NoSuggestionsFound | Drafted(generation: Generation)

  /** The suggestions `main` works on: one analysis, numbered from 1, filtered. */
  function RunSuggestions(t: Tree, role: Option<string>, category: Option<string>, today: string): seq<Suggestion> {
    ApplyFilters(Stamp(Analysis(t).findings, 0, today), role, category)
  }

  /** A filter left unset and a filter set to the empty string both keep everything. */
  lemma FiltersOnlyWhenSet(xs: seq<Suggestion>, role: Option<string>, category: Option<string>)
    ensures ApplyFilters(xs, if Truthy(role) then role else None, if Truthy(category) then category else None) ==
      ApplyFilters(xs, role, category)
  {
  }

  /** `main`, from its parsed arguments, over `REPO_ROOT` (the tree's root). */
  method RunCopilot(t: Tree, role: Option<string>, category: Option<string>, outputDir: Option<string>,
                    token: Option<string>, envToken: Option<string>, dryRun: bool, today: string)
    returns (run: CopilotRun)
    ensures Analysis(t).raised ==> run == AnalysisCrashed
    ensures !Analysis(t).raised && RunSuggestions(t, role, category, today) == [] ==> run == NoSuggestionsFound
    ensures !Analysis(t).raised && RunSuggestions(t, role, category, today) != [] ==>
      run == Drafted(Generate(t, t.root, OutputDir(t.root, outputDir), RunSuggestions(t, role, category, today), dryRun))
  {
    var copilot := new CopilotIntegration(t, t.root, token, envToken, today);
    var result := copilot.GetSuggestions(role, category);
    if result.Escaped? {
      return AnalysisCrashed;
    }
    var suggestions := result.value;
    ghost var all := Stamp(Analysis(t).findings, 0, today);
    assert copilot.analyzer.suggestions == all by {
      assert [] + all == all;
    }
    FiltersOnlyWhenSet(all, role, category);
    assert suggestions == RunSuggestions(t, role, category, today);
    if suggestions == [] {
      return NoSuggestionsFound;
    }
    var generation := copilot.GenerateImprovements(suggestions, outputDir, dryRun);
    run := Drafted(generation);
  }

  // ---------------------------------------------------------------------------
  // Properties of a run

  /** A suggestion naming a file always has a draft, so a run over such suggestions
      never raises. */
  lemma DraftsWithFilesNeverCrash(t: Tree, repoPath: string, dir: string, xs: seq<Suggestion>, dryRun: bool)
    requires forall x :: x in xs ==> x.filePaths != []
    ensures !Generate(t, repoPath, dir, xs, dryRun).crashed
  {
    if dryRun {
      DryRunWritesPrompts(dir, xs, PromptMaker(t, repoPath), DraftOf);
    } else {
      NormalRunCrashIff(dir, xs, PromptMaker(t, repoPath), DraftOf);
    }
  }

  /** Numbering and filtering keep the one file path of every finding. */
  lemma SuggestionsNameOneFile(fs: seq<Finding>, role: Option<string>, category: Option<string>, date: string)
    requires AllWellFormed(fs)
    ensures forall x :: x in ApplyFilters(Stamp(fs, 0, date), role, category) ==> |x.filePaths| == 1
  {
    var all := Stamp(fs, 0, date);
    forall x | x in ApplyFilters(all, role, category) ensures |x.filePaths| == 1 {
      FiltersKeepMembers(all, role, category, x);
      var k :| 0 <= k < |all| && all[k] == x;
      assert Payload(x) == fs[k];
      assert WellFormed(fs[k]);
    }
  }

  lemma FiltersKeepMembers(xs: seq<Suggestion>, role: Option<string>, category: Option<string>, x: Suggestion)
    requires x in ApplyFilters(xs, role, category)
    ensures x in xs
  {
  }

  /** Every suggestion of `main` names exactly one file, so its drafting never raises: the
      run ends with all its prompts and, outside a dry run, all its drafts written. */
  lemma RunNeverCrashesDrafting(t: Tree, role: Option<string>, category: Option<string>, today: string, dir: string, dryRun: bool)
    ensures forall x :: x in RunSuggestions(t, role, category, today) ==> |x.filePaths| == 1
    ensures !Generate(t, t.root, dir, RunSuggestions(t, role, category, today), dryRun).crashed
  {
    var xs := RunSuggestions(t, role, category, today);
    SuggestionsNameOneFile(Analysis(t).findings, role, category, today);
    DraftsWithFilesNeverCrash(t, t.root, dir, xs, dryRun);
  }

  /** `get_suggestions` a second time on the same object runs the rules again and appends
      the same findings once more, numbered on from N + 1. */
  lemma SecondCallDuplicates(fs: seq<Finding>, date: string)
    ensures |Stamp(fs, 0, date) + Stamp(fs, |fs|, date)| == 2 * |fs|
    ensures IdsDense(Stamp(fs, 0, date) + Stamp(fs, |fs|, date))
    ensures forall k :: 0 <= k < |fs| ==>
      (Stamp(fs, 0, date) + Stamp(fs, |fs|, date))[|fs| + k] ==
        Stamp(fs, 0, date)[k].(id := Stamp(fs, 0, date)[k].id + |fs|)
  {
    StampKeepsDense([], fs, date);
    assert [] + Stamp(fs, 0, date) == Stamp(fs, 0, date);
    StampKeepsDense(Stamp(fs, 0, date), fs, date);
    StampShift(fs, |fs|, date);
  }
}
